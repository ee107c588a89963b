# Prayer Wall and starting-point quiz, modelled in Dafny

Worship Room's web front end has two pieces of logic worth modelling. The first is the
starting-point quiz. It asks five questions, adds up the points of the chosen options
over seven feature keys, and recommends the destination of the best-scoring feature;
`pray` wins every tie. The second is the Prayer Wall. It is a feed of prayer requests
served from a built-in mock catalogue, with no backend. Visitors pray for a prayer,
bookmark it, comment on it and share it. The author of a prayer can mark it answered
or delete it. Every change lives in page state only.

This project models:

- **Quiz.** The scoring tables and `calculateResult`, and the quiz widget's
  select / auto-advance / back / retake machine.
- **Utilities.** `timeAgo`, self-harm keyword detection, share-text and card
  truncation, avatar colour and initials, and the `@mention` tokenizer.
- **State containers.** The reaction map, the open-comments set and the toast
  queue.
- **Forms and inputs.** The comment box, the prayer composer, the
  mark-as-answered form, the sign-in dialog and the typewriter hero input.
- **Catalogue.** The mock catalogue and its accessors.
- **Pages.** The four pages: the feed, the dashboard, the public profile and
  the single-prayer page.

Where the source is pure, the model is made of datatypes, functions and lemmas.
Hooks and components that hold state become classes. Their fields are the state;
their handlers are methods with `modifies` clauses, proved against the functions
of `PrayerUpdates`, `PrayerReactions`, `OpenSet` and `Toasts`.

Conventions:

- Strings are `seq<char>`, sequences of Unicode scalar values. JavaScript
  strings are sequences of UTF-16 code units; the two agree on text inside
  the Basic Multilingual Plane (see "## Left out").
- The clock (`Date.now()`, `toISOString()`) is a method parameter.
- The signed-in state that `useAuth` reports is a parameter fixed for a page's
  lifetime.
- Timers are explicit step methods. The quiz's 400 ms advance is
  `StartingPointQuiz.Quiz.FireAdvance`; each typewriter step is
  `TypewriterInput.Typewriter.Step`; a toast's six-second timeout is
  `Toasts.ToastProvider.Dismiss`.

## Model

| member | source | states |
|---|---|---|
| RelativeTime.UnitSeconds | frontend/src/lib/time.ts:1-6 | every unit is at least a minute long (minute 60 s, hour, day, week, 30-day month, 365-day year) |
| RelativeTime.ElapsedSeconds | frontend/src/lib/time.ts:12 | the result is the millisecond difference divided by 1000 rounded down (floor, also for negative differences) |
| RelativeTime.Classify | frontend/src/lib/time.ts:14-37 | "just now" exactly below one minute (negative ages included); otherwise the age falls in the chosen unit's bucket and the count is the number of whole units |
| RelativeTime.BucketUnique | frontend/src/lib/time.ts:14-37 | the buckets do not overlap: an age inside a unit's bucket is classified with that unit and count `seconds / unit` |
| RelativeTime.CountRange | frontend/src/lib/time.ts:16-37 | the count is 1-59 minutes, 1-23 hours, 1-6 days, 1-4 weeks, 1-12 months, or at least 1 year |
| RelativeTime.TimeAgo | frontend/src/lib/time.ts:8-38 | an unparseable date and an age under 60 000 ms read "just now"; every other text parses back to the classification of the elapsed seconds, and since the parser accepts only exact renderings this fixes the text itself |
| RelativeTime.UnitWord | frontend/src/lib/time.ts:18-37 | the unit's name ends in "s" exactly when the count is not 1 |
| RelativeTime.Render | frontend/src/lib/time.ts:14-37 | "just now" exactly for the under-a-minute class; otherwise the text starts with a digit and ends in " ago" |
| RelativeTime.DigitPrefix | frontend/src/lib/time.ts:18 | the count of leading digits: all of them digits and the next character not one |
| RelativeTime.DigitPrefixOfDigits | frontend/src/lib/time.ts:18 | the digit run of a rendered count ends exactly where the count ends |
| RelativeTime.UnitOfWordRoundTrip | frontend/src/lib/time.ts:18-37 | the words after the count name the unit back when they are in the number the count calls for |
| RelativeTime.SingularUnitRoundTrip | frontend/src/lib/time.ts:18-37 | "minute", "hour", "day", "week", "month" and "year" each name their unit back |
| RelativeTime.PluralUnitRoundTrip | frontend/src/lib/time.ts:18-37 | the plural words name their unit back for every count other than 1 |
| RelativeTime.RenderParses | frontend/src/lib/time.ts:14-37 | the rendered text "N unit(s) ago" or "just now" parses back to the classification it came from |
| RelativeTime.RenderInjective | frontend/src/lib/time.ts:14-37 | two classifications render to the same text exactly when they are equal |
| RelativeTime.UnitOfWordOnlyUnitWord | frontend/src/lib/time.ts:18-37 | the parser accepts for a count only the unit word the renderer writes for that count |
| RelativeTime.OnlySingularWord | frontend/src/lib/time.ts:18-37 | after the count 1 the parser accepts only the singular unit word the renderer writes |
| RelativeTime.OnlyPluralWord | frontend/src/lib/time.ts:18-37 | after any other count the parser accepts only the plural unit word the renderer writes |
| RelativeTime.ParseOnlyRender | frontend/src/lib/time.ts:14-37 | whatever text parses to a classification is exactly that classification's rendering |
| RelativeTime.TimeAgoUnique | frontend/src/lib/time.ts:8-38 | any text that reads back as the same age is the very text `timeAgo` returns |
| RelativeTime.WrongNumberRejected | frontend/src/lib/time.ts:18-37 | a count followed by the unit word in the other number ("1 minutes ago", "15 minute ago") is not a rendering |
| RelativeTime.WrongNumberWord | frontend/src/lib/time.ts:18-37 | the unit word in the other number than the count's does not name a unit |
| RelativeTime.SingularWordForPlural | frontend/src/lib/time.ts:18-37 | a singular unit word after a count other than 1 names no unit |
| RelativeTime.PluralWordForSingular | frontend/src/lib/time.ts:18-37 | a plural unit word after the count 1 names no unit |
| RelativeTime.LeadingZeroRejected | frontend/src/lib/time.ts:18-37 | a count written with a leading zero is not a rendering |
| RelativeTime.UnitWordNumber | frontend/src/lib/time.ts:18-37 | the unit word ends in "s" exactly when the count is not 1 |
| RelativeTime.ExampleUnderAMinute | frontend/src/lib/__tests__/time.test.ts:9-13 | 30 seconds ago reads "just now" |
| RelativeTime.ExampleFifteenMinutes | frontend/src/lib/__tests__/time.test.ts:15-19 | 900 seconds ago reads "15 minutes ago" |
| RelativeTime.ExampleOneMinute | frontend/src/lib/__tests__/time.test.ts:21-25 | 60 seconds ago reads "1 minute ago" |
| RelativeTime.ExampleThreeHours | frontend/src/lib/__tests__/time.test.ts:27-31 | three hours ago reads "3 hours ago" |
| RelativeTime.ExampleOneHour | frontend/src/lib/__tests__/time.test.ts:33-37 | one hour ago reads "1 hour ago" |
| RelativeTime.ExampleThreeDays | frontend/src/lib/__tests__/time.test.ts:39-43 | three days ago reads "3 days ago" |
| RelativeTime.ExampleTwoWeeks | frontend/src/lib/__tests__/time.test.ts:45-49 | fourteen days ago reads "2 weeks ago" |
| RelativeTime.ExampleTwoMonths | frontend/src/lib/__tests__/time.test.ts:51-55 | 62 days ago reads "2 months ago" |
| RelativeTime.ExampleTwoYears | frontend/src/lib/__tests__/time.test.ts:57-61 | 731 days ago reads "2 years ago" |
| RelativeTime.FutureIsJustNow | frontend/src/lib/time.ts:14 | a timestamp later than now reads "just now" |
| CrisisResources.SomeIncluded | frontend/src/constants/crisis-resources.ts:32 | true exactly when some keyword of the list occurs in the text |
| CrisisResources.KeywordSearchAgrees | frontend/src/constants/crisis-resources.ts:30-33 | the search over the keyword list answers exactly "some self-harm keyword occurs somewhere in the lower-cased text" |
| CrisisResources.KeywordsLowerCase | frontend/src/constants/crisis-resources.ts:19-28 | every keyword is non-empty and already lower case, so lower-casing the text is enough to match any casing |
| CrisisResources.CaseInsensitive | frontend/src/constants/crisis-resources.ts:31 | texts with the same lower case get the same verdict |
| CrisisResources.UpperCaseStillMatches | frontend/src/constants/crisis-resources.ts:31 | upper-casing a text does not change the verdict |
| CrisisResources.EmptyNeverMatches | frontend/src/constants/crisis-resources.ts:30-33 | the empty text is never flagged |
| CrisisResources.EmbeddedKeywordMatches | frontend/src/constants/crisis-resources.ts:32 | a keyword with any text before and after it is flagged |
| CrisisResources.NoKeywordNoMatch | frontend/src/constants/crisis-resources.ts:30-33 | a text whose lower case includes no keyword is not flagged |
| CrisisResources.KeywordInPiece | frontend/src/constants/crisis-resources.ts:32 | a flagged piece of a text makes the whole text flagged |
| OpenSet.Toggled | frontend/src/hooks/useOpenSet.ts:7-15 | the toggled id's membership flips and every other id keeps its membership |
| OpenSet.ToggleTwice | frontend/src/hooks/useOpenSet.ts:6-16 | toggling an id twice gives back the original set |
| OpenSet.TogglesCommute | frontend/src/hooks/useOpenSet.ts:6-16 | the order of two toggles does not matter |
| OpenSet.OpenComments.constructor | frontend/src/hooks/useOpenSet.ts:4 | every comment section starts closed |
| OpenSet.OpenComments.Toggle | frontend/src/hooks/useOpenSet.ts:6-16 | the new open set is the old one with the id toggled |
| PrayerReactions.WithPrayingToggled | frontend/src/hooks/usePrayerReactions.ts:13-24 | the praying flag flips, the bookmark flag is kept (false when there was no entry), the entry is filed under its id and every other entry is unchanged |
| PrayerReactions.WithBookmarkToggled | frontend/src/hooks/usePrayerReactions.ts:32-42 | the bookmark flag flips, the praying flag is kept, and every other entry is unchanged |
| PrayerReactions.TogglesKeepWellKeyed | frontend/src/hooks/usePrayerReactions.ts:16-23 | both toggles keep every entry filed under its own prayer id |
| PrayerReactions.PrayingToggleTwice | frontend/src/hooks/usePrayerReactions.ts:10-28 | toggling praying twice restores an existing entry exactly |
| PrayerReactions.BookmarkToggleTwice | frontend/src/hooks/usePrayerReactions.ts:30-45 | toggling the bookmark twice restores an existing entry exactly |
| PrayerReactions.ToggleTwiceOnMissingEntry | frontend/src/hooks/usePrayerReactions.ts:15-21 | two toggles on a prayer without an entry leave an entry with both flags off |
| PrayerReactions.TogglesCommute | frontend/src/hooks/usePrayerReactions.ts:10-45 | a praying toggle and a bookmark toggle give the same map in either order |
| PrayerReactions.InitialReactionsWellKeyed | frontend/src/hooks/usePrayerReactions.ts:6-8 | the catalogue reactions the hook starts from are filed under their own ids |
| PrayerReactions.ReactionStore.constructor | frontend/src/hooks/usePrayerReactions.ts:6-8 | the store starts with the catalogue's reactions |
| PrayerReactions.ReactionStore.TogglePraying | frontend/src/hooks/usePrayerReactions.ts:10-28 | reports whether the user was praying before and replaces the map with the praying-toggled one |
| PrayerReactions.ReactionStore.ToggleBookmark | frontend/src/hooks/usePrayerReactions.ts:30-45 | replaces the map with the bookmark-toggled one |
| PrayerReactions.NewReactionStore | frontend/src/hooks/usePrayerReactions.ts:5-8 | a fresh store whose entries are filed under their own ids |
| Toasts.KeepLast | frontend/src/components/ui/Toast.tsx:26 | `slice(-n)`: the result has min(length, n) toasts and they are the last ones, in order |
| Toasts.Without | frontend/src/components/ui/Toast.tsx:31 | a toast stays exactly when it was there and its id differs from the dismissed one |
| Toasts.Shown | frontend/src/components/ui/Toast.tsx:23-27 | at most three toasts with the new one last; below three it is simply appended, otherwise the oldest drop out |
| Toasts.KeepLastIncreasing | frontend/src/components/ui/Toast.tsx:26 | keeping the newest toasts keeps ids increasing |
| Toasts.WithoutIncreasing | frontend/src/components/ui/Toast.tsx:31 | dismissal keeps ids increasing |
| Toasts.DismissAbsent | frontend/src/components/ui/Toast.tsx:30-32 | a timer firing for a toast no longer shown (pushed out by newer ones) changes nothing |
| Toasts.IdsBefore | frontend/src/components/ui/Toast.tsx:22-26 | in an increasing list the toasts before a toast have smaller ids |
| Toasts.IdsAfter | frontend/src/components/ui/Toast.tsx:22-26 | in an increasing list the toasts after a toast have larger ids |
| Toasts.WithoutSeparated | frontend/src/components/ui/Toast.tsx:31 | filtering out an id no other toast carries drops just that toast |
| Toasts.DismissRemovesOnlyThatToast | frontend/src/components/ui/Toast.tsx:30-32 | the timer removes exactly its own toast; the others keep their order |
| Toasts.ToastProvider.constructor | frontend/src/components/ui/Toast.tsx:18-19 | no toasts and the id counter at 0 |
| Toasts.ToastProvider.ShowToast | frontend/src/components/ui/Toast.tsx:21-28 | hands out the counter as the id, bumps the counter, appends the toast (type defaulting to success) and keeps the newest three; at most three, ids increasing and below the counter |
| Toasts.ToastProvider.Dismiss | frontend/src/components/ui/Toast.tsx:30-32 | the six-second timer: the list loses the toasts with that id and the invariant is kept |
| Toasts.FourthToastPushesOutFirst | frontend/src/components/ui/__tests__/Toast.test.tsx:55-85 | four toasts in a row leave the last three, the first pushed out |
| Routes.ProfileRoute | frontend/src/components/prayer-wall/PrayerCard.tsx:29 | the profile address is the prefix "/prayer-wall/user/" followed by the id |
| Routes.ProfileRouteRoundTrip | frontend/src/components/prayer-wall/PrayerCard.tsx:29 | the user id can be read back from the profile address |
| PrayerCard.DisplayText | frontend/src/components/prayer-wall/PrayerCard.tsx:19-26 | the whole content when shown in full, expanded or at most 150 characters; otherwise the first 150 characters and "..." |
| PrayerCard.DisplayKeepsOpening | frontend/src/components/prayer-wall/PrayerCard.tsx:21-26 | whatever is displayed starts with the content's first (up to 150) characters |
| PrayerCard.ToggleSwitchesBetweenCutAndWhole | frontend/src/components/prayer-wall/PrayerCard.tsx:86-94 | when the toggle is shown, collapsed text is 153 characters, expanded text is the whole content, and the labels read "Show more" and "Show less" |
| PrayerCard.ShortOrFullNeverCut | frontend/src/components/prayer-wall/PrayerCard.tsx:19 | short content or a full view is never cut and shows no toggle |
| PrayerCard.AuthorLink | frontend/src/components/prayer-wall/PrayerCard.tsx:28-30 | a link exactly for a non-anonymous prayer with a non-empty user id, and it leads to that user's profile |
| PrayerCard.AnonymousHasNoLink | frontend/src/components/prayer-wall/PrayerCard.tsx:28-30 | an anonymous prayer never links to a profile |
| PrayerCard.NeedsTruncation | frontend/src/components/prayer-wall/PrayerCard.tsx:19 | the text is cut exactly when the card is not forced to full length and the text is longer than 150 characters, and then the cut drops some of it |
| PrayerCard.HasExpandToggle | frontend/src/components/prayer-wall/PrayerCard.tsx:86-95 | with the toggle, the collapsed card shows 150 characters plus the ellipsis and the expanded card the whole text; without it the whole text shows |
| PrayerCard.ExpandToggleLabel | frontend/src/components/prayer-wall/PrayerCard.tsx:93 | the toggle reads "Show less" exactly when expanded and "Show more" exactly when collapsed |
| RovingFocus.StepForward | frontend/src/pages/PrayerWallDashboard.tsx:267 | `(i + 1) % n` is the next position, wrapping from the last to the first |
| RovingFocus.StepBack | frontend/src/pages/PrayerWallDashboard.tsx:268 | `(i - 1 + n) % n` is the previous position, wrapping from the first to the last |
| RovingFocus.BackUndoesForward | frontend/src/pages/PrayerWallDashboard.tsx:267-268 | a step back undoes a step forward |
| RovingFocus.ForwardUndoesBack | frontend/src/pages/PrayerWallDashboard.tsx:267-268 | a step forward undoes a step back |
| RovingFocus.StepsForward | frontend/src/pages/PrayerWallDashboard.tsx:267 | repeated steps stay within the tab bar |
| RovingFocus.StepsBeforeWrap | frontend/src/pages/PrayerWallDashboard.tsx:267 | until the end, k steps from i land on i + k |
| RovingFocus.StepsAfterWrap | frontend/src/pages/PrayerWallDashboard.tsx:267 | past the end, counting restarts at the first tab |
| RovingFocus.FullCircle | frontend/src/pages/PrayerWallDashboard.tsx:267 | n steps forward return to the starting tab |
| RovingFocus.TabTarget | frontend/src/pages/PrayerWallDashboard.tsx:265-275 | only the arrows, Home and End move, always to a tab of the bar; Home to the first and End to the last |
| RovingFocus.TabArrowsUndo | frontend/src/pages/PrayerWallDashboard.tsx:267-268 | ArrowLeft undoes ArrowRight and the other way round |
| RovingFocus.NextTab | frontend/src/pages/PrayerWallProfile.tsx:147-157 | the handler selects exactly when the key has a target, and selects that target |
| ShareDropdown.Quote | frontend/src/components/prayer-wall/ShareDropdown.tsx:12 | content up to 100 characters is kept verbatim; longer content is cut to 100 characters and "..." |
| ShareDropdown.GetShareText | frontend/src/components/prayer-wall/ShareDropdown.tsx:11-13 | the text is the fixed opening, the quote, then the fixed closing, and its length is bounded accordingly |
| ShareDropdown.ShortContentVerbatim | frontend/src/components/prayer-wall/ShareDropdown.tsx:11-13 | short content can be read back from the share text |
| ShareDropdown.LongContentCut | frontend/src/components/prayer-wall/ShareDropdown.tsx:11-13 | long content shows as its first 100 characters and "...", at a fixed total length |
| ShareDropdown.ShortContentInjective | frontend/src/components/prayer-wall/ShareDropdown.tsx:11-13 | two short contents with the same share text are equal |
| ShareDropdown.MenuTarget | frontend/src/components/prayer-wall/ShareDropdown.tsx:94-103 | only ArrowDown, ArrowUp, Home and End move focus, always to an item of the menu |
| ShareDropdown.HandleKeyDown | frontend/src/components/prayer-wall/ShareDropdown.tsx:88-111 | focus outside the items moves nothing; otherwise the key's target is focused |
| ShareDropdown.DownUpRoundTrip | frontend/src/components/prayer-wall/ShareDropdown.tsx:95-98 | ArrowUp undoes ArrowDown and the other way round |
| ShareDropdown.MenuWraps | frontend/src/components/prayer-wall/ShareDropdown.tsx:95-98 | ArrowDown on the last item goes to the first, ArrowUp on the first to the last |
| Avatar.CharCodeSum | frontend/src/components/prayer-wall/Avatar.tsx:17 | the empty id sums to 0 |
| Avatar.CharCodeSumConcat | frontend/src/components/prayer-wall/Avatar.tsx:17 | the code sum of a concatenation is the sum of the parts' sums |
| Avatar.AvatarColor | frontend/src/components/prayer-wall/Avatar.tsx:16-19 | the colour is always one of the eight palette colours |
| Avatar.ColorIgnoresOrder | frontend/src/components/prayer-wall/Avatar.tsx:16-19 | rearranging the parts of a key keeps its colour |
| Avatar.ColorKey | frontend/src/components/prayer-wall/Avatar.tsx:76 | the user id when it is non-empty, else the first name; empty only when both are |
| Avatar.Initials | frontend/src/components/prayer-wall/Avatar.tsx:75 | one upper-cased letter per non-empty name, first name first |
| Avatar.AvatarFor | frontend/src/components/prayer-wall/Avatar.tsx:56-87 | the icon exactly when anonymous; the photo exactly for a non-empty URL that has not failed; otherwise the badge of the upper-cased initials coloured by the user id, or the first name when the id is empty |
| Avatar.FallsBackAfterError | frontend/src/components/prayer-wall/Avatar.tsx:64-76 | after an image error the initials are shown |
| Avatar.SameUserSameColor | frontend/src/components/prayer-wall/Avatar.tsx:76 | a user with an id gets the same colour whatever names are shown |
| Text.TrimStart | frontend/src/components/prayer-wall/InlineComposer.tsx:28 | removes exactly the leading JavaScript whitespace: what is left is a suffix that does not start with whitespace |
| Text.TrimEnd | frontend/src/components/prayer-wall/InlineComposer.tsx:28 | removes exactly the trailing JavaScript whitespace: what is left is a prefix that does not end with whitespace |
| Text.Trim | frontend/src/components/prayer-wall/InlineComposer.tsx:28 | `trim()`: empty exactly for all-whitespace text; otherwise neither end is whitespace; the result is the slice of the input after its leading whitespace, and everything before and after that slice is whitespace |
| Text.TrimmedBetweenBlanks | frontend/src/components/prayer-wall/InlineComposer.tsx:28 | a prefix of a suffix, with only whitespace cut from both ends, is the slice between the cuts; it is empty exactly when the whole text is whitespace |
| Text.TrimIdempotent | frontend/src/components/prayer-wall/InlineComposer.tsx:33 | trimming twice is trimming once |
| Text.TrimOfTrimmed | frontend/src/components/prayer-wall/InlineComposer.tsx:33 | text with no whitespace at either end is left as it is |
| Text.TrimOccursIn | frontend/src/components/TypewriterInput.tsx:113 | the trimmed text is the piece of the original after its leading whitespace, and only whitespace surrounds it |
| Text.ToLower | frontend/src/constants/crisis-resources.ts:31 | `toLowerCase()` maps each character to its lower case, keeping the length |
| Text.ToUpper | frontend/src/components/prayer-wall/Avatar.tsx:75 | `toUpperCase()` maps each character to its upper case, keeping the length |
| Text.ToLowerIdempotent | frontend/src/constants/crisis-resources.ts:31 | lower-casing twice is lower-casing once |
| Text.ToLowerConcat | frontend/src/constants/crisis-resources.ts:31 | lower-casing works character by character across a concatenation |
| Text.ToLowerOfLowerCase | frontend/src/constants/crisis-resources.ts:19-28 | lower-case text is its own lower case |
| Text.Includes | frontend/src/constants/crisis-resources.ts:32 | `includes(sub)` holds exactly when `sub` occurs at some position |
| Text.IncludesEmbedded | frontend/src/constants/crisis-resources.ts:32 | a text includes every piece it was built around |
| Text.NatToString | frontend/src/lib/time.ts:18 | a count renders as a non-empty run of decimal digits |
| Text.ParseNatToString | frontend/src/lib/time.ts:18 | the decimal rendering of a count reads back as that count |
| Submission.SubmitOutcome | frontend/src/components/prayer-wall/InlineComposer.tsx:27-36 | blank text is ignored; non-blank text with a self-harm keyword is held; otherwise the trimmed text is sent |
| Submission.SentTextIsClean | frontend/src/components/prayer-wall/CommentInput.tsx:54-63 | sent text is non-empty, has no whitespace at either end and contains no keyword |
| Submission.SentTextResends | frontend/src/components/prayer-wall/CommentInput.tsx:54-63 | submitting the sent text again sends the same text |
| Submission.WhitespaceIgnored | frontend/src/components/prayer-wall/CommentInput.tsx:55 | a text of spaces only is ignored |
| CommentItem.NameRun | frontend/src/components/prayer-wall/CommentItem.tsx:13 | the length of the leading run of name characters, and the run stops at the first other character |
| CommentItem.FirstMention | frontend/src/components/prayer-wall/CommentItem.tsx:13 | the first position from `from` on where "@" and a name character start, and no match before it |
| CommentItem.ConcatCons2 | frontend/src/components/prayer-wall/CommentItem.tsx:13 | joining two leading parts and the rest gives those parts followed by the joined rest |
| CommentItem.ConsAlternates | frontend/src/components/prayer-wall/CommentItem.tsx:13 | a mention-free text and a maximal mention in front of an alternating split still alternate |
| CommentItem.ConcatStartsWithFirst | frontend/src/components/prayer-wall/CommentItem.tsx:13 | the joined parts start with the first part |
| CommentItem.MentionEnd | frontend/src/components/prayer-wall/CommentItem.tsx:13 | a mention holds "@" and at least one name character and ends within the text |
| CommentItem.TextBeforeFirstMention | frontend/src/components/prayer-wall/CommentItem.tsx:13 | the text before the first mention holds no mention |
| CommentItem.MentionIsMaximal | frontend/src/components/prayer-wall/CommentItem.tsx:13 | the regular expression is greedy: the mention is "@" plus name characters, and the text after it does not go on with a name character |
| CommentItem.NoMentionSplit | frontend/src/components/prayer-wall/CommentItem.tsx:13 | a text without a mention splits into itself alone |
| CommentItem.MentionSplit | frontend/src/components/prayer-wall/CommentItem.tsx:13 | cutting at the first mention and splitting the rest gives an alternating split of the whole text |
| CommentItem.SplitMentions | frontend/src/components/prayer-wall/CommentItem.tsx:13 | the parts join back into the text, and ordinary text and maximal mentions alternate, starting and ending with text |
| CommentItem.ViewPart | frontend/src/components/prayer-wall/CommentItem.tsx:14-37 | every part shows its own text; a part starting with "@" links to the profile of a user with that first name (ignoring case), or is highlighted when there is none; any other part is plain |
| CommentItem.ParseContent | frontend/src/components/prayer-wall/CommentItem.tsx:12-38 | one view per part of the split |
| CommentItem.Texts | frontend/src/components/prayer-wall/CommentItem.tsx:26-36 | the texts the views show, in order |
| CommentItem.ParseContentShowsWholeText | frontend/src/components/prayer-wall/CommentItem.tsx:12-38 | the shown parts read back as the whole comment text |
| CommentItem.MentionsAreHighlighted | frontend/src/components/prayer-wall/CommentItem.tsx:13-35 | every mention takes the mention branch, as a link or a highlighted span |
| CommentItem.LoneAtTakesMentionBranch | frontend/src/components/prayer-wall/CommentItem.tsx:16-34 | ordinary text starting with "@", as in "@ home", is not split off yet is highlighted like a mention |
| CommentItem.NameNotFoundWhenNotAName | frontend/src/components/prayer-wall/CommentItem.tsx:18 | a name starting with a space finds no user |
| CommentItem.FirstNamesStartWithLetter | frontend/src/mocks/prayer-wall-mock-data.ts:12-93 | every catalogue user's first name starts with a capital letter |
| CommentItem.ReplyPrefix | frontend/src/components/prayer-wall/CommentsSection.tsx:31 | "@", the author's name and a space |
| CommentItem.NameRunOfName | frontend/src/components/prayer-wall/CommentItem.tsx:13 | a name followed by a non-name character is read up to its end |
| CommentItem.NoAtNoMention | frontend/src/components/prayer-wall/CommentItem.tsx:13 | text without "@" holds no mention |
| CommentItem.LeadingMention | frontend/src/components/prayer-wall/CommentItem.tsx:13 | "@name rest" splits into the empty text, the mention and the rest |
| CommentItem.SplitAtFirstMention | frontend/src/components/prayer-wall/CommentItem.tsx:13 | the split begins with the text before the first mention and the mention, then splits the rest |
| CommentItem.MentionFreeSplit | frontend/src/components/prayer-wall/CommentItem.tsx:13 | text without "@" is one part |
| CommentItem.ReplyPrefixIsOneMention | frontend/src/components/prayer-wall/CommentsSection.tsx:30-32 | a reply prefix for a one-word name holds exactly one mention, the author's |
| CommentItem.KnownMentionLinks | frontend/src/components/prayer-wall/CommentItem.tsx:18-28 | a mention of a catalogue user links to that user's profile |
| CommentItem.LeadingMentionLinks | frontend/src/components/prayer-wall/__tests__/CommentItem.test.tsx:54-63 | "@Name rest" for a known user shows an empty text, a profile link and the rest as plain text |
| CommentsSection.VisibleComments | frontend/src/components/prayer-wall/CommentsSection.tsx:28 | the first five comments, or all of them when there are fewer, in order |
| CommentsSection.FewCommentsAllVisible | frontend/src/components/prayer-wall/CommentsSection.tsx:28 | five comments or fewer are all shown |
| CommentsSection.SeeMoreText | frontend/src/components/prayer-wall/CommentsSection.tsx:52-59 | the link text opens with "See more comments (showing 5 of ", ends with ")" and the digits between read back as the total |
| CommentsSection.CommentsSection.constructor | frontend/src/components/prayer-wall/CommentsSection.tsx:27 | no reply prefix at first |
| CommentsSection.CommentsSection.HandleReply | frontend/src/components/prayer-wall/CommentsSection.tsx:30-32 | the reply prefix becomes "@" + author name + " " |
| CommentsSection.ShowsSeeMore | frontend/src/components/prayer-wall/CommentsSection.tsx:52 | the "See more" link shows exactly when the list holds more comments than are shown |
| MockData.GetMockPrayers | frontend/src/mocks/prayer-wall-mock-data.ts:757-759 | eighteen prayers, newest activity first, and every answered prayer has a praise text and an answer date |
| MockData.GetMockComments | frontend/src/mocks/prayer-wall-mock-data.ts:761-763 | exactly the catalogue comments on that prayer, in table order |
| MockData.GetMockAllComments | frontend/src/mocks/prayer-wall-mock-data.ts:765-767 | all 35 catalogue comments |
| MockData.EveryCommentIsOnItsPrayer | frontend/src/mocks/prayer-wall-mock-data.ts:761-767 | every comment is among the comments of its own prayer |
| MockData.GetMockUser | frontend/src/mocks/prayer-wall-mock-data.ts:769-771 | the catalogue user with that id, or none exactly when no user has it |
| MockData.GetMockUsers | frontend/src/mocks/prayer-wall-mock-data.ts:773-775 | ten users, each found again by its id |
| MockData.GetMockReactions | frontend/src/mocks/prayer-wall-mock-data.ts:777-779 | six reactions, each filed under its own prayer id |
| MockData.GetMockUserByName | frontend/src/mocks/prayer-wall-mock-data.ts:781-783 | the first catalogue user whose first name equals the given one ignoring case (no earlier user matches), or none exactly when no first name does |
| MockData.StringLessAt | frontend/src/mocks/prayer-wall-mock-data.ts:93-94 | a first differing character that is smaller puts one string before the other |
| MockData.ActivityStampsMatch | frontend/src/mocks/prayer-wall-mock-data.ts:96-384 | the list of activity stamps is the prayers' lastActivityAt, in order |
| MockData.StampsDescendingFirst | frontend/src/mocks/prayer-wall-mock-data.ts:93-94 | the first six activity stamps descend |
| MockData.StampsDescendingMiddle | frontend/src/mocks/prayer-wall-mock-data.ts:93-94 | stamps six to twelve descend |
| MockData.StampsDescendingLast | frontend/src/mocks/prayer-wall-mock-data.ts:93-94 | the last seven stamps descend |
| MockData.StampsDescendingThirds | frontend/src/mocks/prayer-wall-mock-data.ts:93-94 | three overlapping descending runs make one descending list |
| MockData.ActivityStampsDescending | frontend/src/mocks/prayer-wall-mock-data.ts:93-94 | all eighteen stamps descend |
| MockData.MockPrayersNewestFirst | frontend/src/mocks/__tests__/prayer-wall-mock-data.test.ts:18-25 | the catalogue prayers are sorted by lastActivityAt, newest first |
| MockData.CatalogueSizes | frontend/src/mocks/__tests__/prayer-wall-mock-data.test.ts:13-16 | ten users, eighteen prayers, 35 comments and six reactions |
| MockData.MockUserIdsUnique | frontend/src/mocks/prayer-wall-mock-data.ts:10-91 | no two users share an id |
| MockData.MockPrayerIdsUnique | frontend/src/mocks/prayer-wall-mock-data.ts:96-384 | no two prayers share an id |
| MockData.AnonymousPrayersHaveNoUser | frontend/src/mocks/__tests__/prayer-wall-mock-data.test.ts:34-40 | a prayer is anonymous exactly when it has no user id, and anonymous prayers are by "Anonymous" |
| MockData.CommentPrayerIds | frontend/src/mocks/prayer-wall-mock-data.ts:388-731 | no comment is on prayer-13; the first eight are on prayer-1 and no other is |
| MockData.NoCommentsOnPrayer13 | frontend/src/mocks/__tests__/prayer-wall-mock-data.test.ts:62-65 | prayer-13 has no comments |
| MockData.CommentsOnPrayer1 | frontend/src/mocks/__tests__/prayer-wall-mock-data.test.ts:54-60 | the comments on prayer-1 are the first eight of the catalogue |
| MockData.CurrentUserIsFirstUser | frontend/src/mocks/prayer-wall-mock-data.ts:746-753 | the signed-in mock user is the first catalogue user and is found by its id |
| MockData.UnknownUserNotFound | frontend/src/mocks/__tests__/prayer-wall-mock-data.test.ts:88-91 | "user-99" is not found |
| MockData.NameLookupIgnoresCase | frontend/src/mocks/__tests__/prayer-wall-mock-data.test.ts:123-127 | "sarah", "SARAH" and "Sarah" all find the signed-in user |
| MockData.NoFirstNameStartsWithN | frontend/src/mocks/prayer-wall-mock-data.ts:10-91 | no first name starts with n or N |
| MockData.UnknownNameNotFound | frontend/src/mocks/__tests__/prayer-wall-mock-data.test.ts:129-132 | "Nobody" is not found |
| TypewriterInput.PhrasesNonEmpty | frontend/src/components/TypewriterInput.tsx:5-9 | three phrases, none of them empty |
| TypewriterInput.Tick | frontend/src/components/TypewriterInput.tsx:36-94 | one animation step keeps the phrase index in range and keeps the display a prefix of the phrase; the phrase only changes after the empty pause, to the next one round the list |
| TypewriterInput.Run | frontend/src/components/TypewriterInput.tsx:36-94 | any number of steps keeps the phrase index in range |
| TypewriterInput.RunAdds | frontend/src/components/TypewriterInput.tsx:36-94 | running m steps then k steps is running m + k steps |
| TypewriterInput.TypingRuns | frontend/src/components/TypewriterInput.tsx:42-56 | typing from j characters shows the whole phrase after the remaining steps, one character per step |
| TypewriterInput.DeletingRuns | frontend/src/components/TypewriterInput.tsx:68-80 | deleting from j characters reaches the empty display after j steps |
| TypewriterInput.FullRound | frontend/src/components/TypewriterInput.tsx:36-94 | from an empty display, 2n + 4 steps type the phrase, announce it, pause, delete it, pause, and move on to the next phrase |
| TypewriterInput.Typewriter.constructor | frontend/src/components/TypewriterInput.tsx:21-34 | typing the first phrase from an empty display, unfocused, with no visitor text |
| TypewriterInput.Typewriter.Step | frontend/src/components/TypewriterInput.tsx:36-94 | a timer firing advances the animation by one step, only while unfocused and with motion allowed |
| TypewriterInput.Typewriter.Focus | frontend/src/components/TypewriterInput.tsx:96-99 | focus stops the animation and empties its display |
| TypewriterInput.Typewriter.Type | frontend/src/components/TypewriterInput.tsx:149-151 | typing is taken only while focused |
| TypewriterInput.Typewriter.Blur | frontend/src/components/TypewriterInput.tsx:101-109 | leaving an empty input restarts the animation from the first phrase; otherwise nothing changes |
| TypewriterInput.Typewriter.Submit | frontend/src/components/TypewriterInput.tsx:111-115 | the trimmed input value is sent when it is not empty, and nothing otherwise |
| TypewriterInput.TrimOfPrefixOccurs | frontend/src/components/TypewriterInput.tsx:113 | the trimmed text of a prefix of a phrase occurs in the phrase |
| TypewriterInput.UnfocusedSubmitSendsPhrasePiece | frontend/src/components/TypewriterInput.tsx:113-117 | submitting without focusing sends a piece of the phrase being animated |
| TypewriterInput.Typewriter.InputValue | frontend/src/components/TypewriterInput.tsx:117 | the field shows what the user typed while focused, and otherwise a prefix of the phrase being animated |
| MarkAsAnsweredForm.AnsweredForm.constructor | frontend/src/components/prayer-wall/MarkAsAnsweredForm.tsx:10-11 | collapsed, with no praise text |
| MarkAsAnsweredForm.AnsweredForm.Expand | frontend/src/components/prayer-wall/MarkAsAnsweredForm.tsx:30 | the button opens the form and keeps the text |
| MarkAsAnsweredForm.AnsweredForm.Edit | frontend/src/components/prayer-wall/MarkAsAnsweredForm.tsx:44-52 | the text area's value becomes the typed text |
| MarkAsAnsweredForm.AnsweredForm.Confirm | frontend/src/components/prayer-wall/MarkAsAnsweredForm.tsx:20-24 | hands on the trimmed praise text, then collapses and clears the form |
| MarkAsAnsweredForm.AnsweredForm.Cancel | frontend/src/components/prayer-wall/MarkAsAnsweredForm.tsx:60-64 | collapses and clears the form without confirming |
| MarkAsAnsweredForm.ConfirmBlank | frontend/src/components/prayer-wall/MarkAsAnsweredForm.tsx:20-24 | a blank praise text is handed on as the empty text |
| InlineComposer.Composer.constructor | frontend/src/components/prayer-wall/InlineComposer.tsx:13-15 | empty text, not anonymous, no crisis notice |
| InlineComposer.Composer.Change | frontend/src/components/prayer-wall/InlineComposer.tsx:18-23 | the text becomes what was typed; the check box and the notice are kept |
| InlineComposer.Composer.SetAnonymous | frontend/src/components/prayer-wall/InlineComposer.tsx:81 | the check box takes the new value; nothing else changes |
| InlineComposer.Composer.Submit | frontend/src/components/prayer-wall/InlineComposer.tsx:27-40 | blank text changes nothing; text with a keyword raises the crisis notice and is kept; otherwise the trimmed text and the anonymity flag are sent and the form is reset |
| InlineComposer.Composer.Cancel | frontend/src/components/prayer-wall/InlineComposer.tsx:42-49 | clears the text and the check box; the crisis notice stays |
| InlineComposer.Composer.SubmitDisabled | frontend/src/components/prayer-wall/InlineComposer.tsx:98 | the button is disabled exactly when submitting would be ignored or the text is over 1000 characters |
| InlineComposer.Composer.CounterDanger | frontend/src/components/prayer-wall/InlineComposer.tsx:105-109 | the danger colour only appears while the counter is shown |
| InlineComposer.EnabledSubmitIsNeverIgnored | frontend/src/components/prayer-wall/InlineComposer.tsx:95-101 | pressing the enabled button sends or holds the prayer, and sent text is at most 1000 characters |
| InlineComposer.Composer.CounterShown | frontend/src/components/prayer-wall/InlineComposer.tsx:105 | while the character counter is hidden the text is under the limit, so the button is disabled exactly when the text is blank |
| CommentInput.CommentBoxFor | frontend/src/components/prayer-wall/CommentInput.tsx:30-50 | the text box exactly when signed in; a login button when signed out with a handler, else a link to "/login" |
| CommentInput.CommentBox.constructor | frontend/src/components/prayer-wall/CommentInput.tsx:17-20 | the box starts with the initial value and no crisis notice |
| CommentInput.CommentBox.ApplyInitialValue | frontend/src/components/prayer-wall/CommentInput.tsx:23-28 | called on a change of the prop: a non-empty reply prefix replaces the text; an empty one changes nothing |
| CommentInput.CommentBox.Change | frontend/src/components/prayer-wall/CommentInput.tsx:79-84 | text within 500 characters is taken and clears the notice; longer text is refused |
| CommentInput.CommentBox.Submit | frontend/src/components/prayer-wall/CommentInput.tsx:54-63 | blank text changes nothing; text with a keyword raises the notice and is kept; otherwise the trimmed text is sent and the box is emptied |
| CommentInput.CommentBox.KeyDown | frontend/src/components/prayer-wall/CommentInput.tsx:65-70 | Enter without Shift submits: blank text changes nothing, crisis text is kept and raises the notice, other text is sent trimmed and clears the box and the notice; any other key changes nothing |
| CommentInput.CommentBox.SubmitDisabled | frontend/src/components/prayer-wall/CommentInput.tsx:94 | the send button is disabled exactly when submitting would be ignored |
| CommentInput.TypeAndSend | frontend/src/components/prayer-wall/CommentInput.tsx:54-84 | a clean comment typed and sent is handed on trimmed and leaves the box empty |
| AuthModal.Title | frontend/src/components/prayer-wall/AuthModal.tsx:8-12 | every view has a non-empty title |
| AuthModal.TitlesDistinct | frontend/src/components/prayer-wall/AuthModal.tsx:8-12 | different views have different titles |
| AuthModal.ForgotOnlyFromLogin | frontend/src/components/prayer-wall/AuthModal.tsx:200-210 | the reset view is reached only from the log-in view |
| AuthModal.LinksGoBothWays | frontend/src/components/prayer-wall/AuthModal.tsx:118-256 | every link between views can be followed back |
| AuthModal.Dialog.constructor | frontend/src/components/prayer-wall/AuthModal.tsx:20-22 | closed, on the log-in view, with an empty e-mail |
| AuthModal.Dialog.Open | frontend/src/components/prayer-wall/AuthModalProvider.tsx:16 | opening shows the log-in view with an empty e-mail |
| AuthModal.Dialog.Close | frontend/src/components/prayer-wall/AuthModal.tsx:32-38 | closing resets the view to log-in and clears the e-mail |
| AuthModal.Dialog.Navigate | frontend/src/components/prayer-wall/AuthModal.tsx:118-256 | following a link shown in the current view switches to its target and keeps the e-mail |
| AuthModal.Dialog.EditResetEmail | frontend/src/components/prayer-wall/AuthModal.tsx:106-107 | the e-mail box takes the typed value |
| AuthModal.Dialog.Submit | frontend/src/components/prayer-wall/AuthModal.tsx:40-47 | the log-in or registration form shows "Authentication coming soon" and closes the dialog |
| AuthModal.Dialog.SendDisabled | frontend/src/components/prayer-wall/AuthModal.tsx:112 | "Send Reset Link" is disabled exactly while the e-mail is blank |
| AuthModal.Dialog.ForgotSubmit | frontend/src/components/prayer-wall/AuthModal.tsx:49-57 | the reset form shows "Password reset coming soon", clears the e-mail and returns to log-in, staying open |
| AuthModal.Dialog.Heading | frontend/src/components/prayer-wall/AuthModal.tsx:59-79 | a heading exactly while the dialog is open |
| AuthModal.ReopenAfterReset | frontend/src/components/prayer-wall/AuthModal.tsx:32-38 | leaving from the reset view and reopening shows "Log In" with an empty e-mail |
| QuizData.KeyIndex | frontend/src/components/quiz-data.ts:31-39 | the position of a feature in the tie-break order; every feature appears exactly once |
| QuizData.DestinationFor | frontend/src/components/quiz-data.ts:261 | the catalogue destination whose key is the winner |
| QuizData.CalculateResult | frontend/src/components/quiz-data.ts:226-262 | the loops compute the reference recommendation: a catalogue destination whose feature has the highest score and beats every earlier feature |
| QuizData.TableShape | frontend/src/components/__tests__/quiz-data.test.ts:10-40 | five questions with four options each, seven destinations, pray first in the tie-break order, and all points positive |
| QuizData.DestinationKeysInOrder | frontend/src/components/quiz-data.ts:149-220 | the destinations are listed in the tie-break order of their features |
| QuizData.DestinationsCoverKeys | frontend/src/components/quiz-data.ts:149-220 | every feature has exactly one destination, so the final lookup always finds one |
| QuizData.ScanFromIsWinner | frontend/src/components/quiz-data.ts:251-259 | the scan keeps the first feature with the strictly highest score so far and ends with the winner |
| QuizData.WinnerIsWinner | frontend/src/components/quiz-data.ts:251-259 | the scan's result has the highest score and every earlier feature scores strictly less |
| QuizData.WinnerUnique | frontend/src/components/quiz-data.ts:250-259 | there is only one such winner |
| QuizData.PrayWinsTies | frontend/src/components/quiz-data.ts:250-251 | pray wins every tie for the highest score |
| QuizData.ScoreOfUnanswered | frontend/src/components/quiz-data.ts:239-240 | unanswered questions add no points |
| QuizData.AllUnansweredIsPray | frontend/src/components/__tests__/quiz-data.test.ts:84-87 | with no answers every score is zero and pray is recommended |
| QuizData.ScoreReadsFirstFive | frontend/src/components/quiz-data.ts:238 | scores read only the answers to the five questions |
| QuizData.ExtraAnswersIgnored | frontend/src/components/quiz-data.ts:238 | answers beyond the fifth change nothing |
| QuizData.MissingAnswersAreUnanswered | frontend/src/components/quiz-data.ts:239-240 | a missing answer counts as unanswered |
| QuizData.OutOfRangeIsUnanswered | frontend/src/components/quiz-data.ts:242-243 | an answer index with no option counts as unanswered |
| QuizData.ScoreChosenAgree | frontend/src/components/quiz-data.ts:237-248 | answers choosing the same options give the same scores |
| QuizData.RecommendReadsScores | frontend/src/components/quiz-data.ts:250-261 | the recommendation depends only on the scores |
| QuizData.ScoreIsSumOfQuestions | frontend/src/components/quiz-data.ts:237-248 | a feature's score is the sum of the points of the five chosen options |
| QuizData.RecommendByScores | frontend/src/components/quiz-data.ts:250-261 | a feature with the highest score that beats every earlier feature is recommended |
| QuizData.ExampleFirstOptions | frontend/src/components/__tests__/quiz-data.test.ts:42-46 | all first options recommend Pray |
| QuizData.ExampleJournal | frontend/src/components/__tests__/quiz-data.test.ts:48-52 | journal-heavy answers recommend Journal |
| QuizData.ExampleMusic | frontend/src/components/__tests__/quiz-data.test.ts:54-58 | music-heavy answers recommend Music |
| QuizData.ExampleMeditate | frontend/src/components/__tests__/quiz-data.test.ts:60-64 | meditation-heavy answers recommend Meditate |
| QuizData.ExamplePrayerWall | frontend/src/components/__tests__/quiz-data.test.ts:66-70 | prayer-wall-heavy answers recommend Prayer Wall |
| QuizData.ExampleSleepRest | frontend/src/components/__tests__/quiz-data.test.ts:72-76 | a single sleep answer recommends Sleep & Rest |
| QuizData.ExampleTie | frontend/src/components/__tests__/quiz-data.test.ts:78-82 | a tie between pray and another feature recommends Pray |
| StartingPointQuiz.NoAnswers | frontend/src/components/StartingPointQuiz.tsx:13-15 | one answer slot per question, all of them empty |
| StartingPointQuiz.Quiz.constructor | frontend/src/components/StartingPointQuiz.tsx:12-17 | the first question, no answers, sliding left, no advance pending |
| StartingPointQuiz.Quiz.Destination | frontend/src/components/StartingPointQuiz.tsx:70-71 | a destination exactly once past the last question, and it is a catalogue destination whose feature wins the scoring |
| StartingPointQuiz.Quiz.Progress | frontend/src/components/StartingPointQuiz.tsx:124-131 | the progress bar runs from 20 to 100 percent and is full exactly on the last question |
| StartingPointQuiz.Quiz.Select | frontend/src/components/StartingPointQuiz.tsx:31-49 | records the answer for the question on screen, slides left and schedules the advance |
| StartingPointQuiz.Quiz.FireAdvance | frontend/src/components/StartingPointQuiz.tsx:44-46 | the 400 ms timer moves to the next question, keeping the answers |
| StartingPointQuiz.Quiz.Back | frontend/src/components/StartingPointQuiz.tsx:51-55 | clears the pending advance, slides right and goes back one question, keeping the answers |
| StartingPointQuiz.Quiz.Retake | frontend/src/components/StartingPointQuiz.tsx:57-62 | clears the pending advance and the answers, slides right and returns to the first question |
| StartingPointQuiz.AnswerLastQuestion | frontend/src/components/StartingPointQuiz.tsx:31-71 | answering the last question and letting the timer fire shows the recommendation for the recorded answers |
| StartingPointQuiz.Quiz.ShowResult | frontend/src/components/StartingPointQuiz.tsx:70 | the result card replaces the questions exactly once every question is answered |
| StartingPointQuiz.Quiz.HasBackButton | frontend/src/components/StartingPointQuiz.tsx:211-220 | "Back" shows only on a question after the first, never on the first one |
| PrayerUpdates.NewPrayer | frontend/src/pages/PrayerWall.tsx:45-59 | the new prayer carries the content and the flag; anonymous means no user and "Anonymous", otherwise the signed-in user's id and first name, or no id and "You"; unanswered, uncounted, created and active now |
| PrayerUpdates.NewComment | frontend/src/pages/PrayerWall.tsx:87-95 | the new comment is on that prayer with that content, created now, by the signed-in user or "anonymous"/"You" |
| PrayerUpdates.UpdateById | frontend/src/pages/PrayerWall.tsx:70-76 | the prayers with that id are replaced by their update; every other prayer and the order are kept |
| PrayerUpdates.UpdateUndone | frontend/src/pages/PrayerWall.tsx:67-79 | an update followed by its inverse restores the list |
| PrayerUpdates.WithPrayingAdjusted | frontend/src/pages/PrayerWall.tsx:73 | the count goes down by one if the user was praying and up by one otherwise; nothing else changes |
| PrayerUpdates.PrayingAdjustUndone | frontend/src/pages/PrayerWall.tsx:67-79 | praying then unpraying restores the prayer |
| PrayerUpdates.PrayingListUndone | frontend/src/pages/PrayerWall.tsx:67-79 | praying then unpraying restores the whole list |
| PrayerUpdates.WithCommentBumped | frontend/src/pages/PrayerWall.tsx:100-110 | one more comment and the activity time is now; nothing else changes |
| PrayerUpdates.AnsweredText | frontend/src/pages/PrayerWallDashboard.tsx:69 | "praiseText or null": no text exactly for the empty praise |
| PrayerUpdates.WithAnswer | frontend/src/pages/PrayerWallDashboard.tsx:63-74 | answered, with the praise text (or none) and the answer time now; nothing else changes |
| PrayerUpdates.UpdatesKeepAnswersDated | frontend/src/pages/PrayerWallDashboard.tsx:61-78 | marking answered, new comments and praying keep every answered prayer dated, and the marked prayer is answered |
| PrayerUpdates.MarkAnsweredIdempotent | frontend/src/pages/PrayerWallDashboard.tsx:61-78 | marking the same prayer answered twice with the same text and time is marking it once |
| PrayerUpdates.RemovePrayer | frontend/src/pages/PrayerWallDashboard.tsx:82 | the prayers with another id, the rest kept in feed order |
| PrayerUpdates.RemoveIdempotent | frontend/src/pages/PrayerWallDashboard.tsx:80-86 | deleting twice is deleting once, and deleting an absent id changes nothing |
| PrayerUpdates.RemoveOnlyThatPrayer | frontend/src/pages/PrayerWallDashboard.tsx:80-86 | deleting a prayer whose id no other prayer shares leaves the prayers before it and after it, in order |
| PrayerUpdates.PrayersBy | frontend/src/pages/PrayerWallDashboard.tsx:111-113 | exactly the prayers attributed to that user, in feed order |
| PrayerUpdates.ProfilePrayers | frontend/src/pages/PrayerWallProfile.tsx:86-88 | exactly the prayers attributed to that user that are not anonymous, in feed order |
| PrayerUpdates.AnonymousPrayerNotListed | frontend/src/pages/PrayerWall.tsx:47 | a prayer posted anonymously is never listed under any user |
| PrayerUpdates.CommentsBy | frontend/src/pages/PrayerWallDashboard.tsx:114-116 | exactly the comments written by that user, in catalogue order |
| PrayerUpdates.BookmarkedIds | frontend/src/pages/PrayerWallDashboard.tsx:117-119 | exactly the ids whose reaction is bookmarked |
| PrayerUpdates.PrayingIds | frontend/src/pages/PrayerWallDashboard.tsx:123-125 | exactly the ids whose reaction is praying |
| PrayerUpdates.BookmarkedPrayers | frontend/src/pages/PrayerWallDashboard.tsx:120-122 | exactly the prayers of the list that are bookmarked, in feed order |
| PrayerUpdates.PrayedForPrayers | frontend/src/pages/PrayerWallDashboard.tsx:126-128 | exactly the prayers of the list the user is praying for, in feed order |
| PrayerUpdates.BookmarkToggleMovesPrayer | frontend/src/pages/PrayerWallDashboard.tsx:117-122 | toggling a prayer's bookmark moves it into or out of the bookmarks tab |
| PrayerUpdates.FeedChangesKeepAnonymity | frontend/src/pages/PrayerWall.tsx:45-110 | posting, praying, commenting, marking answered and deleting keep every anonymous prayer without a user id |
| PrayerUpdates.ProfileMatchesDashboard | frontend/src/pages/PrayerWallProfile.tsx:86-88 | while anonymous prayers carry no user id, the profile's extra anonymity test filters nothing more than the dashboard's |
| PrayerUpdates.CatalogueAnonymity | frontend/src/mocks/prayer-wall-mock-data.ts:96-384 | the catalogue's anonymous prayers carry no user id |
| PrayerUpdates.LoadFeed | frontend/src/pages/PrayerWall.tsx:25 | the pages start from the catalogue's prayers, whose anonymous prayers carry no user id and whose answered prayers are dated |
| PrayerWallPage.CommentsFor | frontend/src/pages/PrayerWall.tsx:182 | the locally posted comments of that prayer come first, then exactly the catalogue comments of that prayer in table order; nothing else is listed |
| PrayerWallPage.CardWithoutLocalComments | frontend/src/pages/PrayerWall.tsx:182 | a card with nothing posted on this page shows exactly `getMockComments(id)` |
| PrayerWallPage.CommentsStayOnTheirPrayer | frontend/src/pages/PrayerWall.tsx:96-99 | while local comments are filed under their own prayer, a prayer's comment list holds only that prayer's comments |
| PrayerWallPage.PostedCommentShowsFirst | frontend/src/pages/PrayerWall.tsx:96-99 | a newly posted comment is first in its prayer's list and the filing stays consistent |
| PrayerWallPage.PostedCommentStaysOnItsPrayer | frontend/src/pages/PrayerWall.tsx:96-99 | posting a comment leaves every other prayer's comment list unchanged |
| PrayerWallPage.PrayerWall.constructor | frontend/src/pages/PrayerWall.tsx:21-35 | the first page is the first twenty catalogue prayers; the composer is closed, no comments are open and there are no local comments or toasts |
| PrayerWallPage.PrayerWall.LoadMore | frontend/src/pages/PrayerWall.tsx:37-39 | the shown prayers become the catalogue's first (shown + 20), capped at the catalogue's length |
| PrayerWallPage.PrayerWall.ShareButton | frontend/src/pages/PrayerWall.tsx:127-152 | signed in, the button toggles the composer; signed out, it asks for sign-in and leaves the composer as it was |
| PrayerWallPage.PrayerWall.CloseComposer | frontend/src/pages/PrayerWall.tsx:161-165 | the composer is closed |
| PrayerWallPage.PrayerWall.ComposerSubmit | frontend/src/pages/PrayerWall.tsx:41-65 | signed out nothing changes; signed in, the new prayer goes first, the composer closes and the "shared" toast shows |
| PrayerWallPage.PrayerWall.TogglePraying | frontend/src/pages/PrayerWall.tsx:67-79 | the praying flag flips, and that prayer's count moves by one in the direction of the change |
| PrayerWallPage.PrayerWall.ToggleBookmark | frontend/src/pages/PrayerWall.tsx:176 | the bookmark flag flips and nothing else of the reactions changes |
| PrayerWallPage.PrayerWall.ToggleComments | frontend/src/pages/PrayerWall.tsx:175 | that prayer's comment section opens if it was closed and closes if it was open |
| PrayerWallPage.PrayerWall.CommentsShown | frontend/src/pages/PrayerWall.tsx:179-185 | every comment shown under a prayer belongs to that prayer |
| PrayerWallPage.PrayerWall.SubmitComment | frontend/src/pages/PrayerWall.tsx:81-114 | signed out nothing changes; signed in, the new comment is filed first under its prayer, that prayer's count and activity are bumped, and the "posted" toast shows |
| PrayerWallPage.Mount | frontend/src/pages/PrayerWall.tsx:19-35 | the page mounts over the whole catalogue, which fits on the first page, so Load More is not offered |
| PrayerWallPage.PrayThenUnpray | frontend/src/pages/PrayerWall.tsx:67-79 | praying for a prayer and then taking it back leaves the feed's counts as they were |
| PrayerWallPage.PrayerWall.HasMore | frontend/src/pages/PrayerWall.tsx:35 | "Load more" is offered exactly when fewer prayers are shown than the feed holds |
| PrayerWallDashboard.DashboardOwner | frontend/src/pages/PrayerWallDashboard.tsx:49-51 | the signed-in user's id and names with an empty bio, or the mock current user and their bio when no user is reported |
| PrayerWallDashboard.StartingBioFits | frontend/src/pages/PrayerWallDashboard.tsx:51 | the bio the page starts from never exceeds the 500-character limit |
| PrayerWallDashboard.Dashboard.constructor | frontend/src/pages/PrayerWallDashboard.tsx:44-59 | the page starts on My Prayers with the owner's name and bio, not editing, over the given prayers and comments |
| PrayerWallDashboard.Dashboard.View | frontend/src/pages/PrayerWallDashboard.tsx:107-109 | signed out, the page is exactly a redirect to the login page that returns to the dashboard |
| PrayerWallDashboard.Dashboard.MyPrayers | frontend/src/pages/PrayerWallDashboard.tsx:111-113 | exactly the prayers attributed to the owner, in feed order |
| PrayerWallDashboard.Dashboard.MyComments | frontend/src/pages/PrayerWallDashboard.tsx:114-116 | exactly the comments the owner wrote, in catalogue order |
| PrayerWallDashboard.Dashboard.Bookmarks | frontend/src/pages/PrayerWallDashboard.tsx:117-122 | exactly the prayers the user bookmarked, in feed order |
| PrayerWallDashboard.Dashboard.PrayedFor | frontend/src/pages/PrayerWallDashboard.tsx:123-128 | exactly the prayers the user is praying for, in feed order |
| PrayerWallDashboard.Dashboard.MarkAnswered | frontend/src/pages/PrayerWallDashboard.tsx:61-78 | the prayer is marked answered, so it no longer shows the answer and delete controls, and the "answered" toast shows |
| PrayerWallDashboard.Dashboard.Delete | frontend/src/pages/PrayerWallDashboard.tsx:80-86 | the prayer is removed from the list, the rest kept in order, and from My Prayers; the "deleted" toast shows |
| PrayerWallDashboard.Dashboard.SubmitComment | frontend/src/pages/PrayerWallDashboard.tsx:88-105 | the prayer's count and activity are bumped and the "posted" toast shows; the text itself is dropped |
| PrayerWallDashboard.Dashboard.TogglePraying | frontend/src/pages/PrayerWallDashboard.tsx:302 | the praying flag flips; unlike the feed, the prayer's count is not adjusted |
| PrayerWallDashboard.Dashboard.ToggleBookmark | frontend/src/pages/PrayerWallDashboard.tsx:304 | the bookmark flag flips |
| PrayerWallDashboard.Dashboard.ToggleComments | frontend/src/pages/PrayerWallDashboard.tsx:303 | that prayer's comment section opens or closes |
| PrayerWallDashboard.Dashboard.StartEditingName | frontend/src/pages/PrayerWallDashboard.tsx:188-195 | the name editor opens |
| PrayerWallDashboard.Dashboard.EditName | frontend/src/pages/PrayerWallDashboard.tsx:165-171 | the display name becomes the typed value |
| PrayerWallDashboard.Dashboard.SaveName | frontend/src/pages/PrayerWallDashboard.tsx:172-181 | the name editor closes and the "name updated" toast shows |
| PrayerWallDashboard.Dashboard.StartEditingBio | frontend/src/pages/PrayerWallDashboard.tsx:233-240 | the bio editor opens |
| PrayerWallDashboard.Dashboard.EditBio | frontend/src/pages/PrayerWallDashboard.tsx:201-211 | a value of at most 500 characters replaces the bio; a longer one is refused and the bio stays |
| PrayerWallDashboard.Dashboard.SaveBio | frontend/src/pages/PrayerWallDashboard.tsx:216-225 | the bio editor closes and the "bio updated" toast shows |
| PrayerWallDashboard.Dashboard.BioText | frontend/src/pages/PrayerWallDashboard.tsx:229-232 | a non-empty bio is shown as it is; an empty bio shows the placeholder |
| PrayerWallDashboard.Dashboard.SelectTab | frontend/src/pages/PrayerWallDashboard.tsx:264 | the clicked tab becomes active |
| PrayerWallDashboard.Dashboard.TabKeyDown | frontend/src/pages/PrayerWallDashboard.tsx:265-275 | the arrows, Home and End select the tab the wrap-around rule names; any other key leaves the active tab alone |
| PrayerWallDashboard.Mount | frontend/src/pages/PrayerWallDashboard.tsx:44-59 | the dashboard mounts over every catalogue prayer and comment, on My Prayers, for the owner the auth state names |
| PrayerWallDashboard.DeleteTwice | frontend/src/pages/PrayerWallDashboard.tsx:80-86 | deleting the same prayer twice removes it once |
| PrayerWallDashboard.ShowsAnswerControls | frontend/src/pages/PrayerWallDashboard.tsx:314 | the answer and delete controls show exactly for prayers not yet marked answered |
| PrayerWallProfile.ProfileUser | frontend/src/pages/PrayerWallProfile.tsx:32-33 | a user is found exactly when the route names a catalogue user's id; an empty or missing id finds no one |
| PrayerWallProfile.Profile.constructor | frontend/src/pages/PrayerWallProfile.tsx:31-41 | the page starts on the Prayers tab over the given prayers and comments, with nothing open and no toasts |
| PrayerWallProfile.Profile.View | frontend/src/pages/PrayerWallProfile.tsx:62-84 | "User not found" exactly when no user was found; otherwise the profile of that user |
| PrayerWallProfile.Profile.UserPrayers | frontend/src/pages/PrayerWallProfile.tsx:86-88 | exactly the user's own prayers that are not anonymous, in feed order, which is the dashboard's list for that user |
| PrayerWallProfile.Profile.Replies | frontend/src/pages/PrayerWallProfile.tsx:89 | exactly the comments the user wrote, in catalogue order |
| PrayerWallProfile.Profile.ReactedPrayers | frontend/src/pages/PrayerWallProfile.tsx:90-92 | the reactions tab is always empty |
| PrayerWallProfile.Profile.SubmitComment | frontend/src/pages/PrayerWallProfile.tsx:43-60 | the prayer's count and activity are bumped and the "posted" toast shows |
| PrayerWallProfile.Profile.TogglePraying | frontend/src/pages/PrayerWallProfile.tsx:184 | the praying flag flips; the prayer's count is not adjusted |
| PrayerWallProfile.Profile.ToggleBookmark | frontend/src/pages/PrayerWallProfile.tsx:186 | the bookmark flag flips |
| PrayerWallProfile.Profile.ToggleComments | frontend/src/pages/PrayerWallProfile.tsx:185 | that prayer's comment section opens or closes |
| PrayerWallProfile.Profile.SelectTab | frontend/src/pages/PrayerWallProfile.tsx:146 | the clicked tab becomes active |
| PrayerWallProfile.Profile.TabKeyDown | frontend/src/pages/PrayerWallProfile.tsx:147-157 | the arrows, Home and End select the tab the wrap-around rule names; any other key leaves the active tab alone |
| PrayerWallProfile.Mount | frontend/src/pages/PrayerWallProfile.tsx:31-41 | the profile mounts over the catalogue for the user the route names |
| PrayerDetailPage.FindPrayer | frontend/src/pages/PrayerDetail.tsx:25-26 | a prayer is found only when the route names its id, it is the first prayer in the list with that id, and none is found exactly when no prayer has that id |
| PrayerDetailPage.DetailComments | frontend/src/pages/PrayerDetail.tsx:32 | no or an empty route id gives no comments; otherwise exactly the catalogue comments on the routed prayer, in table order |
| PrayerDetailPage.DetailMatchesFeedCard | frontend/src/pages/PrayerDetail.tsx:32 | before anything is posted, the detail page and the feed card of a prayer show the same comments in the same order |
| PrayerDetailPage.Detail.constructor | frontend/src/pages/PrayerDetail.tsx:19-32 | the page holds the found prayer, an empty reply prefix and the prayer's comments |
| PrayerDetailPage.Detail.View | frontend/src/pages/PrayerDetail.tsx:90-112 | "Prayer not found" exactly when there is no prayer; otherwise that prayer |
| PrayerDetailPage.Detail.IsOwner | frontend/src/pages/PrayerDetail.tsx:114 | the owner is the signed-in user whose id is the prayer's user id, so an anonymous prayer has no owner |
| PrayerDetailPage.Detail.ShowsOwnerControls | frontend/src/pages/PrayerDetail.tsx:141-146 | the answer and delete controls show only to the owner, and never on an answered prayer |
| PrayerDetailPage.Detail.TogglePraying | frontend/src/pages/PrayerDetail.tsx:34-40 | with no prayer nothing changes; otherwise the praying flag flips and the count moves by one accordingly |
| PrayerDetailPage.Detail.ToggleBookmark | frontend/src/pages/PrayerDetail.tsx:42-45 | with no prayer nothing changes; otherwise the bookmark flag flips |
| PrayerDetailPage.Detail.SubmitComment | frontend/src/pages/PrayerDetail.tsx:47-63 | the prayer's count and activity are bumped, the reply prefix is cleared and the "posted" toast shows |
| PrayerDetailPage.Detail.Reply | frontend/src/pages/PrayerDetail.tsx:65-67 | the reply prefix becomes "@" + the author's name + a space |
| PrayerDetailPage.Detail.MarkAnswered | frontend/src/pages/PrayerDetail.tsx:69-84 | the prayer is answered with the praise text, so the owner controls disappear, and the "answered" toast shows |
| PrayerDetailPage.Detail.Delete | frontend/src/pages/PrayerDetail.tsx:86-88 | only the "deleted" toast shows; the prayer stays |
| PrayerDetailPage.Mount | frontend/src/pages/PrayerDetail.tsx:19-32 | the page mounts on the catalogue prayer the route names and its comments |
| PrayerDetailPage.PrayTwice | frontend/src/pages/PrayerDetail.tsx:34-40 | two presses of the praying button leave the prayer as it was |

## Left out

- `formatFullDate` in `frontend/src/lib/time.ts`: it formats through `Intl` date formatting, which has no counterpart here.
- Parsing of ISO date strings in `timeAgo`: the parsed time is an input in milliseconds, or `None` where JavaScript parses to `NaN`.
- Rendering, styling, ARIA wiring and DOM focus: focus traps, `focus()` calls, `useInView` and the skip links are not modelled. The keyboard handlers are modelled only down to the index or tab they select.
- Timer durations: the quiz's 400 ms advance, the typewriter's typing and pause delays and the toasts' six seconds. Each timer is a step method that the environment calls. Cancelling a pending timer is the clearing of a flag.
- `prefers-reduced-motion` is a boolean input of the typewriter. The media query itself is not modelled.
- Unicode case mapping: `toLowerCase` and `toUpperCase` are modelled on ASCII letters only. Mention names (`\p{L}\p{N}_`) are likewise restricted to ASCII letters, digits and `_`.
- Characters outside the Basic Multilingual Plane (emoji such as "🙏"): a model character is a Unicode scalar value, which counts 1 where JavaScript's `length` counts 2 UTF-16 code units. For such text the 500-character limits of `CommentInput.CommentBox.Change` and `PrayerWallDashboard.Dashboard.EditBio`, the 500/1000 counter thresholds of `InlineComposer`, the 150-character cut of `PrayerCard.DisplayText` and the 100-character cut of `ShareDropdown.Quote` fall at other places than in the source, and `Avatar.CharCodeSum` adds the scalar value where `charCodeAt` adds the two surrogates, so the avatar colour can differ. Lone surrogates, which JavaScript strings may hold, cannot be written in the model.
- `Date.now()` and `new Date().toISOString()` are parameters. The generated ids (`prayer-new-…`, `comment-local-…`) are built from the given millisecond value.
- `useAuth`: a page's signed-in flag and user are constructor parameters, fixed for the page's lifetime.
- React's batching and re-rendering are not modelled. Each handler applies its state updates in the order written, as one method.
- The clipboard, the share links, `window.location`, and navigation by links and `Navigate` are not modelled. The dashboard's redirect is modelled as its view value.
- Dashboard settings: the notification check boxes are disabled and hold no state, and the "Change Photo" button is disabled.
- The mock accessors' fresh copies: equal values model them, and reference identity between two calls is not expressible for values.
- `PrayerReactions.NewReactionStore`: does not state that the new store holds the catalogue's reactions. It promises only that entries are filed under their own ids, so that the pages' proofs do not unfold the catalogue's reaction table. `PrayerReactions.ReactionStore.constructor` states the exact initial map.
- The HTTP client wrapper (`/api/health`, `/api/hello`), the landing pages and the other page chrome are not part of this model.
