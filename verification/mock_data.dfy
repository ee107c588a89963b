/**
 * The built-in catalogue that stands in for a backend: ten users, eighteen
 * prayers newest activity first, thirty-five comments, and the signed-in
 * mock user's reactions.
 */
module MockCatalog {
  import opened Wrappers
  import opened PrayerWallTypes

  // ----- users -----

  const User1: PrayerWallUser :=
    PrayerWallUser("user-1", "Sarah", "Johnson",
      Some("https://i.pravatar.cc/150?u=user1"),
      "Wife, mother, and believer. Finding peace in prayer and gratitude every day.",
      "2025-09-15T00:00:00Z")

  const User2: PrayerWallUser :=
    PrayerWallUser("user-2", "David", "Chen",
      Some("https://i.pravatar.cc/150?u=user2"),
      "Worship leader at Grace Community Church. Music is my love language with God.",
      "2025-11-01T00:00:00Z")

  const User3: PrayerWallUser :=
    PrayerWallUser("user-3", "Emily", "Rodriguez",
      Some("https://i.pravatar.cc/150?u=user3"),
      "Seminary student. Passionate about scripture study and community prayer.",
      "2026-01-05T00:00:00Z")

  const User4: PrayerWallUser :=
    PrayerWallUser("user-4", "James", "Mitchell",
      Some("https://i.pravatar.cc/150?u=user4"),
      "Retired pastor. Still serving through prayer and encouragement.",
      "2025-08-20T00:00:00Z")

  const User5: PrayerWallUser :=
    PrayerWallUser("user-5", "Rachel", "Kim",
      Some("https://i.pravatar.cc/150?u=user5"),
      "Teacher and prayer warrior. Lifting up students and families daily.",
      "2025-12-10T00:00:00Z")

  const User6: PrayerWallUser :=
    PrayerWallUser("user-6", "Michael", "Thompson",
      Some("https://i.pravatar.cc/150?u=user6"),
      "New to faith. Finding my way one prayer at a time.",
      "2026-02-01T00:00:00Z")

  const User7: PrayerWallUser :=
    PrayerWallUser("user-7", "Grace", "Okafor",
      Some("https://i.pravatar.cc/150?u=user7"),
      "Nurse and mother of three. God sustains me through every shift.",
      "2025-10-15T00:00:00Z")

  const User8: PrayerWallUser :=
    PrayerWallUser("user-8", "Daniel", "Park",
      None,
      "College student navigating faith and life. Grateful for this community.",
      "2026-01-20T00:00:00Z")

  const User9: PrayerWallUser :=
    PrayerWallUser("user-9", "Maria", "Santos",
      None,
      "Grandmother of five. Every day is a blessing.",
      "2025-07-01T00:00:00Z")

  const User10: PrayerWallUser :=
    PrayerWallUser("user-10", "Anonymous", "User",
      None,
      "",
      "2026-01-01T00:00:00Z")

  const MockUsers: seq<PrayerWallUser> := [User1, User2, User3, User4, User5, User6, User7, User8, User9, User10]


  // ----- prayers, newest activity first -----

  const Prayer1: PrayerRequest :=
    PrayerRequest("prayer-1", Some("user-1"), "Sarah", Some("https://i.pravatar.cc/150?u=user1"), false,
      "Please pray for my mother who was just diagnosed with cancer. She starts chemo next week and we are all scared but trusting in God. She has been the rock of our family for 40 years and I cannot imagine life without her strength and love. We need a miracle.",
      false, None, None,
      "2026-02-25T14:30:00Z", "2026-02-26T10:15:00Z", 47, 12)

  const Prayer2: PrayerRequest :=
    PrayerRequest("prayer-2", Some("user-2"), "David", Some("https://i.pravatar.cc/150?u=user2"), false,
      "Our church is going through a difficult transition with our lead pastor retiring. Please pray for unity, wisdom for the elders, and that God would send the right person to shepherd our congregation.",
      false, None, None,
      "2026-02-24T09:00:00Z", "2026-02-26T08:30:00Z", 31, 8)

  const Prayer3: PrayerRequest :=
    PrayerRequest("prayer-3", None, "Anonymous", None, true,
      "I am struggling with addiction and feel so alone. I know God can help me but I keep falling. Please pray that I find the strength to reach out for help and that God would surround me with people who care.",
      false, None, None,
      "2026-02-25T22:00:00Z", "2026-02-26T07:45:00Z", 56, 6)

  const Prayer4: PrayerRequest :=
    PrayerRequest("prayer-4", Some("user-3"), "Emily", Some("https://i.pravatar.cc/150?u=user3"), false,
      "Pray for my finals this week. Trusting God with the results.",
      false, None, None,
      "2026-02-26T06:00:00Z", "2026-02-26T06:00:00Z", 12, 3)

  const Prayer5: PrayerRequest :=
    PrayerRequest("prayer-5", Some("user-4"), "James", Some("https://i.pravatar.cc/150?u=user4"), false,
      "Praise God! After two years of infertility, my daughter and her husband are expecting their first child! Thank you to everyone who prayed with us. God is faithful.",
      true, Some("We prayed for two years and God answered in His perfect timing. Baby is due in July. Our family is overjoyed and so grateful for this community."), Some("2026-02-20T16:00:00Z"),
      "2024-03-10T12:00:00Z", "2026-02-25T20:00:00Z", 89, 15)

  const Prayer6: PrayerRequest :=
    PrayerRequest("prayer-6", Some("user-5"), "Rachel", Some("https://i.pravatar.cc/150?u=user5"), false,
      "One of my students lost their parent this week. Please pray for comfort and peace for the whole family. They need to know they are not alone.",
      false, None, None,
      "2026-02-23T18:00:00Z", "2026-02-25T16:30:00Z", 38, 5)

  const Prayer7: PrayerRequest :=
    PrayerRequest("prayer-7", Some("user-6"), "Michael", Some("https://i.pravatar.cc/150?u=user6"), false,
      "Starting a new job Monday. Nervous but grateful.",
      false, None, None,
      "2026-02-25T10:00:00Z", "2026-02-25T15:00:00Z", 18, 2)

  const Prayer8: PrayerRequest :=
    PrayerRequest("prayer-8", Some("user-7"), "Grace", Some("https://i.pravatar.cc/150?u=user7"), false,
      "My husband lost his job last month and we are struggling to make ends meet. We have three young children and the bills are piling up. I am trying to trust God but the anxiety is overwhelming. Please pray for provision and for my husband to find work soon. We need doors to open.",
      false, None, None,
      "2026-02-22T20:00:00Z", "2026-02-25T12:00:00Z", 42, 10)

  const Prayer9: PrayerRequest :=
    PrayerRequest("prayer-9", Some("user-8"), "Daniel", None, false,
      "Feeling disconnected from God lately. Please pray that I can find my way back. I used to feel His presence so strongly and now everything feels quiet.",
      false, None, None,
      "2026-02-24T22:00:00Z", "2026-02-25T09:00:00Z", 25, 4)

  const Prayer10: PrayerRequest :=
    PrayerRequest("prayer-10", Some("user-9"), "Maria", None, false,
      "Thank you, Lord, for another beautiful day with my grandchildren. Praying for all the grandparents out there raising little ones. You are not forgotten.",
      false, None, None,
      "2026-02-24T15:00:00Z", "2026-02-24T15:00:00Z", 15, 2)

  const Prayer11: PrayerRequest :=
    PrayerRequest("prayer-11", None, "Anonymous", None, true,
      "Pray for my marriage. We need God to intervene.",
      false, None, None,
      "2026-02-23T08:00:00Z", "2026-02-24T11:00:00Z", 33, 3)

  const Prayer12: PrayerRequest :=
    PrayerRequest("prayer-12", Some("user-1"), "Sarah", Some("https://i.pravatar.cc/150?u=user1"), false,
      "God answered! My son got accepted into his dream college with a full scholarship. We have been praying about this for over a year. God is so good!",
      true, Some("After months of waiting and praying, the acceptance letter came today. Full ride. We are in tears. Thank you to everyone who lifted us up."), Some("2026-02-18T10:00:00Z"),
      "2025-11-15T12:00:00Z", "2026-02-23T14:00:00Z", 64, 9)

  const Prayer13: PrayerRequest :=
    PrayerRequest("prayer-13", Some("user-2"), "David", Some("https://i.pravatar.cc/150?u=user2"), false,
      "Please lift up our worship team. We have a big Easter service coming up and we want every note to glorify God. Pray for unity and anointing.",
      false, None, None,
      "2026-02-21T14:00:00Z", "2026-02-22T18:00:00Z", 20, 0)

  const Prayer14: PrayerRequest :=
    PrayerRequest("prayer-14", Some("user-5"), "Rachel", Some("https://i.pravatar.cc/150?u=user5"), false,
      "Grateful for this community. You all lift me up.",
      false, None, None,
      "2026-02-20T08:00:00Z", "2026-02-20T08:00:00Z", 8, 1)

  const Prayer15: PrayerRequest :=
    PrayerRequest("prayer-15", Some("user-3"), "Emily", Some("https://i.pravatar.cc/150?u=user3"), false,
      "My roommate is going through a really hard time and I do not know how to help. She is not a believer but she is open to prayer. Please pray that God opens her heart and that I can be the friend she needs right now without being pushy.",
      false, None, None,
      "2026-02-19T20:00:00Z", "2026-02-20T06:00:00Z", 22, 4)

  const Prayer16: PrayerRequest :=
    PrayerRequest("prayer-16", Some("user-7"), "Grace", Some("https://i.pravatar.cc/150?u=user7"), false,
      "UPDATE: My husband got a job offer today! It is even better than his last position. God provided exactly when we needed it most. Thank you all for praying with us!",
      true, Some("Three weeks of uncertainty and God came through. Better pay, better hours, closer to home. He truly works all things for good."), Some("2026-02-15T17:00:00Z"),
      "2026-01-28T12:00:00Z", "2026-02-18T09:00:00Z", 51, 7)

  const Prayer17: PrayerRequest :=
    PrayerRequest("prayer-17", Some("user-4"), "James", Some("https://i.pravatar.cc/150?u=user4"), false,
      "Pray for the persecuted church around the world. So many believers are suffering for their faith. May God strengthen them and protect them.",
      false, None, None,
      "2026-02-15T07:00:00Z", "2026-02-17T12:00:00Z", 35, 2)

  const Prayer18: PrayerRequest :=
    PrayerRequest("prayer-18", Some("user-6"), "Michael", Some("https://i.pravatar.cc/150?u=user6"), false,
      "Just got baptized last Sunday! Best decision of my life. Thank you to this community for helping me find my way to faith. I never thought I would be here but God had other plans.",
      false, None, None,
      "2026-02-10T16:00:00Z", "2026-02-14T20:00:00Z", 72, 11)

  const MockPrayers: seq<PrayerRequest> := [
    Prayer1, Prayer2, Prayer3, Prayer4, Prayer5, Prayer6, Prayer7, Prayer8, Prayer9,
    Prayer10, Prayer11, Prayer12, Prayer13, Prayer14, Prayer15, Prayer16, Prayer17, Prayer18
  ]


  // ----- comments -----

  const Comment1: PrayerComment :=
    PrayerComment("comment-1", "prayer-1", "user-2", "David", Some("https://i.pravatar.cc/150?u=user2"),
      "Lifting your mother up in prayer right now. God is the great healer.",
      "2026-02-26T10:15:00Z")

  const Comment2: PrayerComment :=
    PrayerComment("comment-2", "prayer-1", "user-3", "Emily", Some("https://i.pravatar.cc/150?u=user3"),
      "@Sarah Standing with you in prayer. Psalm 46:1 \U{2014} God is our refuge and strength.",
      "2026-02-26T09:30:00Z")

  const Comment3: PrayerComment :=
    PrayerComment("comment-3", "prayer-1", "user-4", "James", Some("https://i.pravatar.cc/150?u=user4"),
      "Lord, be with this family. Wrap them in Your peace. Amen.",
      "2026-02-26T08:00:00Z")

  const Comment4: PrayerComment :=
    PrayerComment("comment-4", "prayer-1", "user-5", "Rachel", Some("https://i.pravatar.cc/150?u=user5"),
      "Praying for complete healing. Keep trusting.",
      "2026-02-25T22:30:00Z")

  const Comment5: PrayerComment :=
    PrayerComment("comment-5", "prayer-1", "user-7", "Grace", Some("https://i.pravatar.cc/150?u=user7"),
      "@Sarah As a nurse, I have seen miracles happen. Keep your faith strong. Praying for your mom.",
      "2026-02-25T21:00:00Z")

  const Comment6: PrayerComment :=
    PrayerComment("comment-6", "prayer-1", "user-9", "Maria", None,
      "My heart goes out to you, dear. Praying without ceasing.",
      "2026-02-25T19:00:00Z")

  const Comment7: PrayerComment :=
    PrayerComment("comment-7", "prayer-1", "user-8", "Daniel", None,
      "God is bigger than any diagnosis. Believing with you.",
      "2026-02-25T18:00:00Z")

  const Comment8: PrayerComment :=
    PrayerComment("comment-8", "prayer-1", "user-6", "Michael", Some("https://i.pravatar.cc/150?u=user6"),
      "Praying for strength for the whole family.",
      "2026-02-25T17:00:00Z")

  const Comment9: PrayerComment :=
    PrayerComment("comment-9", "prayer-2", "user-4", "James", Some("https://i.pravatar.cc/150?u=user4"),
      "As a retired pastor, transitions are hard but God always provides. Praying for your elders.",
      "2026-02-26T08:30:00Z")

  const Comment10: PrayerComment :=
    PrayerComment("comment-10", "prayer-2", "user-1", "Sarah", Some("https://i.pravatar.cc/150?u=user1"),
      "@David Praying for your church family. God has someone perfect in mind.",
      "2026-02-25T20:00:00Z")

  const Comment11: PrayerComment :=
    PrayerComment("comment-11", "prayer-2", "user-3", "Emily", Some("https://i.pravatar.cc/150?u=user3"),
      "Unity in the body of Christ is so important. Lifting this up.",
      "2026-02-25T15:00:00Z")

  const Comment12: PrayerComment :=
    PrayerComment("comment-12", "prayer-3", "user-4", "James", Some("https://i.pravatar.cc/150?u=user4"),
      "You are not alone in this fight. God sees you and loves you exactly where you are. One step at a time.",
      "2026-02-26T07:45:00Z")

  const Comment13: PrayerComment :=
    PrayerComment("comment-13", "prayer-3", "user-7", "Grace", Some("https://i.pravatar.cc/150?u=user7"),
      "Praying for freedom and healing. Reach out to someone you trust today.",
      "2026-02-26T06:00:00Z")

  const Comment14: PrayerComment :=
    PrayerComment("comment-14", "prayer-3", "user-2", "David", Some("https://i.pravatar.cc/150?u=user2"),
      "Romans 8:38-39 \U{2014} nothing can separate you from the love of God. Keep fighting.",
      "2026-02-26T01:00:00Z")

  const Comment15: PrayerComment :=
    PrayerComment("comment-15", "prayer-4", "user-1", "Sarah", Some("https://i.pravatar.cc/150?u=user1"),
      "You got this, Emily! Praying for peace and focus.",
      "2026-02-26T07:00:00Z")

  const Comment16: PrayerComment :=
    PrayerComment("comment-16", "prayer-4", "user-9", "Maria", None,
      "@Emily Praying for you sweetheart. Do your best and leave the rest to God.",
      "2026-02-26T06:30:00Z")

  const Comment17: PrayerComment :=
    PrayerComment("comment-17", "prayer-4", "user-8", "Daniel", None,
      "Same here! Finals are stressful. We can do this.",
      "2026-02-26T06:15:00Z")

  const Comment18: PrayerComment :=
    PrayerComment("comment-18", "prayer-5", "user-1", "Sarah", Some("https://i.pravatar.cc/150?u=user1"),
      "This makes my heart so full! Congratulations to your daughter!",
      "2026-02-20T17:00:00Z")

  const Comment19: PrayerComment :=
    PrayerComment("comment-19", "prayer-5", "user-7", "Grace", Some("https://i.pravatar.cc/150?u=user7"),
      "@James What beautiful news! God is so faithful. Praying for a healthy pregnancy.",
      "2026-02-20T18:00:00Z")

  const Comment20: PrayerComment :=
    PrayerComment("comment-20", "prayer-6", "user-4", "James", Some("https://i.pravatar.cc/150?u=user4"),
      "Lord, comfort this child and their family. Be their strength.",
      "2026-02-25T16:30:00Z")

  const Comment21: PrayerComment :=
    PrayerComment("comment-21", "prayer-6", "user-3", "Emily", Some("https://i.pravatar.cc/150?u=user3"),
      "@Rachel You are such a caring teacher. Praying for your student.",
      "2026-02-24T10:00:00Z")

  const Comment22: PrayerComment :=
    PrayerComment("comment-22", "prayer-7", "user-2", "David", Some("https://i.pravatar.cc/150?u=user2"),
      "You will do great! Praying for confidence and favor.",
      "2026-02-25T15:00:00Z")

  const Comment23: PrayerComment :=
    PrayerComment("comment-23", "prayer-7", "user-5", "Rachel", Some("https://i.pravatar.cc/150?u=user5"),
      "New beginnings are exciting! God has great plans for you.",
      "2026-02-25T12:00:00Z")

  const Comment24: PrayerComment :=
    PrayerComment("comment-24", "prayer-8", "user-1", "Sarah", Some("https://i.pravatar.cc/150?u=user1"),
      "@Grace My family went through the same thing. God will provide. Philippians 4:19.",
      "2026-02-25T12:00:00Z")

  const Comment25: PrayerComment :=
    PrayerComment("comment-25", "prayer-8", "user-4", "James", Some("https://i.pravatar.cc/150?u=user4"),
      "Praying for provision and peace. God has not forgotten you.",
      "2026-02-24T08:00:00Z")

  const Comment26: PrayerComment :=
    PrayerComment("comment-26", "prayer-9", "user-4", "James", Some("https://i.pravatar.cc/150?u=user4"),
      "Spiritual dry seasons happen to everyone. Keep seeking Him. He is closer than you think.",
      "2026-02-25T09:00:00Z")

  const Comment27: PrayerComment :=
    PrayerComment("comment-27", "prayer-9", "user-3", "Emily", Some("https://i.pravatar.cc/150?u=user3"),
      "@Daniel I have been there. Sometimes silence is where God does His deepest work. Praying for you.",
      "2026-02-25T07:00:00Z")

  const Comment28: PrayerComment :=
    PrayerComment("comment-28", "prayer-10", "user-5", "Rachel", Some("https://i.pravatar.cc/150?u=user5"),
      "What a beautiful heart you have, Maria. Blessings to you and your grandchildren!",
      "2026-02-24T16:00:00Z")

  const Comment29: PrayerComment :=
    PrayerComment("comment-29", "prayer-11", "user-9", "Maria", None,
      "Marriage is worth fighting for. Praying God restores what feels broken.",
      "2026-02-24T11:00:00Z")

  const Comment30: PrayerComment :=
    PrayerComment("comment-30", "prayer-15", "user-1", "Sarah", Some("https://i.pravatar.cc/150?u=user1"),
      "@Emily Just be present. Sometimes the best witness is a faithful friend.",
      "2026-02-20T06:00:00Z")

  const Comment31: PrayerComment :=
    PrayerComment("comment-31", "prayer-15", "user-4", "James", Some("https://i.pravatar.cc/150?u=user4"),
      "Praying for open doors and open hearts.",
      "2026-02-19T22:00:00Z")

  const Comment32: PrayerComment :=
    PrayerComment("comment-32", "prayer-16", "user-2", "David", Some("https://i.pravatar.cc/150?u=user2"),
      "God is so good! Rejoicing with you!",
      "2026-02-18T09:00:00Z")

  const Comment33: PrayerComment :=
    PrayerComment("comment-33", "prayer-18", "user-1", "Sarah", Some("https://i.pravatar.cc/150?u=user1"),
      "@Michael Welcome to the family! This is the best news!",
      "2026-02-14T20:00:00Z")

  const Comment34: PrayerComment :=
    PrayerComment("comment-34", "prayer-18", "user-4", "James", Some("https://i.pravatar.cc/150?u=user4"),
      "The angels are celebrating with you! What a journey. Praise God.",
      "2026-02-11T10:00:00Z")

  const Comment35: PrayerComment :=
    PrayerComment("comment-35", "prayer-18", "user-7", "Grace", Some("https://i.pravatar.cc/150?u=user7"),
      "Tears of joy reading this. God changes lives!",
      "2026-02-10T20:00:00Z")

  const MockComments: seq<PrayerComment> := [
    Comment1, Comment2, Comment3, Comment4, Comment5, Comment6, Comment7,
    Comment8, Comment9, Comment10, Comment11, Comment12, Comment13, Comment14,
    Comment15, Comment16, Comment17, Comment18, Comment19, Comment20, Comment21,
    Comment22, Comment23, Comment24, Comment25, Comment26, Comment27, Comment28,
    Comment29, Comment30, Comment31, Comment32, Comment33, Comment34, Comment35
  ]

  const MockReactions: map<string, PrayerReaction> := map[
    "prayer-1" := PrayerReaction("prayer-1", true, true),
    "prayer-3" := PrayerReaction("prayer-3", true, false),
    "prayer-5" := PrayerReaction("prayer-5", true, true),
    "prayer-8" := PrayerReaction("prayer-8", false, false),
    "prayer-12" := PrayerReaction("prayer-12", true, true),
    "prayer-18" := PrayerReaction("prayer-18", true, false)
  ]

  /** The user the dashboard shows when nobody is signed in: Sarah Johnson. */
  const MockCurrentUser: PrayerWallUser :=
    PrayerWallUser("user-1", "Sarah", "Johnson",
      Some("https://i.pravatar.cc/150?u=user1"),
      "Wife, mother, and believer. Finding peace in prayer and gratitude every day.",
      "2025-09-15T00:00:00Z")
}

/** The accessors the pages read the catalogue through, and what the catalogue guarantees. */
module MockData {
  import opened Wrappers
  import opened Text
  import opened Seqs
  import opened PrayerWallTypes
  import opened MockCatalog

  // ----- accessors -----

  /** `getMockPrayers`: the whole feed, newest activity first. */
  function GetMockPrayers(): (r: seq<PrayerRequest>)
    ensures |r| == 18 && NewestFirst(r)
    ensures forall i :: 0 <= i < |r| && r[i].isAnswered ==> r[i].answeredText.Some? && r[i].answeredAt.Some?
  {
    MockPrayersNewestFirst();
    MockPrayers
  }

  /** `getMockComments`: the comments on one prayer, in catalogue order. */
  function GetMockComments(prayerId: string): (r: seq<PrayerComment>)
    ensures forall c :: c in r <==> c in MockComments && c.prayerId == prayerId
    ensures KeptInOrder(r, MockComments, OnPrayer(prayerId))
  {
    Filter(MockComments, OnPrayer(prayerId))
  }

  function OnPrayer(prayerId: string): PrayerComment -> bool {
    (c: PrayerComment) => c.prayerId == prayerId
  }

  /** `getMockAllComments`: every comment. */
  function GetMockAllComments(): (r: seq<PrayerComment>)
    ensures |r| == 35
  {
    MockComments
  }

  /** Every comment in the full list is also listed under its own prayer. */
  lemma EveryCommentIsOnItsPrayer()
    ensures forall c :: c in GetMockAllComments() ==> c in GetMockComments(c.prayerId)
  {
  }

  /** `getMockUser`: the first user with that id, or `None` (`undefined`). */
  function GetMockUser(userId: string): (r: Option<PrayerWallUser>)
    ensures r.Some? ==> r.value in MockUsers && r.value.id == userId
    ensures r.None? <==> forall u :: u in MockUsers ==> u.id != userId
  {
    Find(MockUsers, (u: PrayerWallUser) => u.id == userId)
  }

  /** `getMockUsers`: every user. */
  function GetMockUsers(): (r: seq<PrayerWallUser>)
    ensures |r| == 10
    ensures forall u :: u in r ==> GetMockUser(u.id) == Some(u)
  {
    MockUserIdsUnique();
    forall u | u in MockUsers
      ensures GetMockUser(u.id) == Some(u)
    {
      var i :| 0 <= i < |MockUsers| && MockUsers[i] == u;
      var r := GetMockUser(u.id);
      var j :| 0 <= j < |MockUsers| && MockUsers[j] == r.value;
      assert i == j;
    }
    MockUsers
  }

  /** `getMockReactions`: the signed-in mock user's reactions, keyed by prayer id. */
  function GetMockReactions(): (r: map<string, PrayerReaction>)
    ensures |r| == 6
    ensures forall id :: id in r ==> r[id].prayerId == id
  {
    MockReactions
  }

  /** No user before position `i` has the first name `firstName`, ignoring letter case. */
  predicate FirstNameMissedBefore(firstName: string, i: int)
    requires i <= |MockUsers|
  {
    forall j :: 0 <= j < i ==> ToLower(MockUsers[j].firstName) != ToLower(firstName)
  }

  /**
   * `getMockUserByName`: the first user whose first name equals `firstName`
   * ignoring letter case, or `None`.
   */
  function GetMockUserByName(firstName: string): (r: Option<PrayerWallUser>)
    ensures r.Some? ==> r.value in MockUsers && ToLower(r.value.firstName) == ToLower(firstName)
    ensures r.None? <==> forall u :: u in MockUsers ==> ToLower(u.firstName) != ToLower(firstName)
    ensures r.Some? ==>
      exists i :: 0 <= i < |MockUsers| && MockUsers[i] == r.value && FirstNameMissedBefore(firstName, i)
  {
    Find(MockUsers, (u: PrayerWallUser) => ToLower(u.firstName) == ToLower(firstName))
  }

  // ----- catalogue facts -----

  /** Two strings that agree up to position `k` and differ there are ordered by that position. */
  lemma StringLessAt(a: string, b: string, k: nat)
    requires k < |a| && k < |b| && a[k] < b[k]
    requires forall j :: 0 <= j < k ==> a[j] == b[j]
    ensures StringLessEq(a, b)
  {
    assert a[..k] == b[..k];
  }

  /** The prayers' last-activity timestamps, in catalogue order. */
  const ActivityStamps: seq<string> := [
    "2026-02-26T10:15:00Z",
    "2026-02-26T08:30:00Z",
    "2026-02-26T07:45:00Z",
    "2026-02-26T06:00:00Z",
    "2026-02-25T20:00:00Z",
    "2026-02-25T16:30:00Z",
    "2026-02-25T15:00:00Z",
    "2026-02-25T12:00:00Z",
    "2026-02-25T09:00:00Z",
    "2026-02-24T15:00:00Z",
    "2026-02-24T11:00:00Z",
    "2026-02-23T14:00:00Z",
    "2026-02-22T18:00:00Z",
    "2026-02-20T08:00:00Z",
    "2026-02-20T06:00:00Z",
    "2026-02-18T09:00:00Z",
    "2026-02-17T12:00:00Z",
    "2026-02-14T20:00:00Z"
  ]

  lemma ActivityStampsMatch()
    ensures |ActivityStamps| == |MockPrayers|
    ensures forall i :: 0 <= i < |MockPrayers| ==> MockPrayers[i].lastActivityAt == ActivityStamps[i]
  {
  }

  /** Each timestamp is no later than the one before it. */
  predicate StampsDescending(s: seq<string>) {
    forall i :: 0 < i < |s| ==> StringLessEq(s[i], s[i - 1])
  }

  /** The order is checked in three overlapping stretches of the timestamps. */
  lemma StampsDescendingFirst()
    ensures StampsDescending(ActivityStamps[..6])
  {
    var s := ActivityStamps[..6];
    assert s == ["2026-02-26T10:15:00Z", "2026-02-26T08:30:00Z", "2026-02-26T07:45:00Z", "2026-02-26T06:00:00Z", "2026-02-25T20:00:00Z", "2026-02-25T16:30:00Z"];
    StringLessAt(s[1], s[0], 11);
    StringLessAt(s[2], s[1], 12);
    StringLessAt(s[3], s[2], 12);
    StringLessAt(s[4], s[3], 9);
    StringLessAt(s[5], s[4], 11);
  }

  lemma StampsDescendingMiddle()
    ensures StampsDescending(ActivityStamps[5..12])
  {
    var s := ActivityStamps[5..12];
    assert s == ["2026-02-25T16:30:00Z", "2026-02-25T15:00:00Z", "2026-02-25T12:00:00Z", "2026-02-25T09:00:00Z", "2026-02-24T15:00:00Z", "2026-02-24T11:00:00Z", "2026-02-23T14:00:00Z"];
    StringLessAt(s[1], s[0], 12);
    StringLessAt(s[2], s[1], 12);
    StringLessAt(s[3], s[2], 11);
    StringLessAt(s[4], s[3], 9);
    StringLessAt(s[5], s[4], 12);
    StringLessAt(s[6], s[5], 9);
  }

  lemma StampsDescendingLast()
    ensures StampsDescending(ActivityStamps[11..])
  {
    var s := ActivityStamps[11..];
    assert s == ["2026-02-23T14:00:00Z", "2026-02-22T18:00:00Z", "2026-02-20T08:00:00Z", "2026-02-20T06:00:00Z", "2026-02-18T09:00:00Z", "2026-02-17T12:00:00Z", "2026-02-14T20:00:00Z"];
    StringLessAt(s[1], s[0], 9);
    StringLessAt(s[2], s[1], 9);
    StringLessAt(s[3], s[2], 12);
    StringLessAt(s[4], s[3], 8);
    StringLessAt(s[5], s[4], 9);
    StringLessAt(s[6], s[5], 9);
  }

  /** Three overlapping ordered stretches make an ordered whole. */
  lemma StampsDescendingThirds(s: seq<string>)
    requires |s| == 18
    requires StampsDescending(s[..6]) && StampsDescending(s[5..12]) && StampsDescending(s[11..])
    ensures StampsDescending(s)
  {
    forall i | 0 < i < |s|
      ensures StringLessEq(s[i], s[i - 1])
    {
      if i < 6 {
        assert s[..6][i] == s[i] && s[..6][i - 1] == s[i - 1];
      } else if i < 12 {
        assert s[5..12][i - 5] == s[i] && s[5..12][i - 6] == s[i - 1];
      } else {
        assert s[11..][i - 11] == s[i] && s[11..][i - 12] == s[i - 1];
      }
    }
  }

  lemma ActivityStampsDescending()
    ensures StampsDescending(ActivityStamps)
  {
    StampsDescendingFirst();
    StampsDescendingMiddle();
    StampsDescendingLast();
    StampsDescendingThirds(ActivityStamps);
  }

  /** The feed is stored newest activity first. */
  lemma MockPrayersNewestFirst()
    ensures NewestFirst(MockPrayers)
  {
    ActivityStampsMatch();
    ActivityStampsDescending();
  }

  lemma CatalogueSizes()
    ensures |MockUsers| == 10 && |MockPrayers| == 18 && |MockComments| == 35 && |MockReactions| == 6
  {
  }

  /** No two users share an id. */
  lemma MockUserIdsUnique()
    ensures forall i, j :: 0 <= i < j < |MockUsers| ==> MockUsers[i].id != MockUsers[j].id
  {
  }

  /** No two prayers share an id. */
  lemma MockPrayerIdsUnique()
    ensures forall i, j :: 0 <= i < j < |MockPrayers| ==> MockPrayers[i].id != MockPrayers[j].id
  {
  }

  /** A prayer is anonymous exactly when it has no author id, and then it is credited to "Anonymous". */
  lemma AnonymousPrayersHaveNoUser()
    ensures forall i :: 0 <= i < |MockPrayers| ==> (MockPrayers[i].isAnonymous <==> MockPrayers[i].userId.None?)
    ensures forall i :: 0 <= i < |MockPrayers| && MockPrayers[i].isAnonymous ==> MockPrayers[i].authorName == "Anonymous"
  {
  }

  /** Which catalogue comments are on prayers 1 and 13. */
  lemma CommentPrayerIds()
    ensures forall i :: 0 <= i < |MockComments| ==> MockComments[i].prayerId != "prayer-13"
    ensures forall i :: 0 <= i < 8 ==> MockComments[i].prayerId == "prayer-1"
    ensures forall i :: 8 <= i < |MockComments| ==> MockComments[i].prayerId != "prayer-1"
  {
  }

  /** Prayer 13 has no comments. */
  lemma NoCommentsOnPrayer13()
    ensures GetMockComments("prayer-13") == []
  {
    CommentPrayerIds();
    FilterNone(MockComments, OnPrayer("prayer-13"));
  }

  /** The first eight catalogue comments, and only they, are on prayer 1. */
  lemma CommentsOnPrayer1()
    ensures GetMockComments("prayer-1") == MockComments[..8]
  {
    CommentPrayerIds();
    FilterPrefix(MockComments, 8, OnPrayer("prayer-1"));
  }

  /** The signed-in mock user is the catalogue's first user. */
  lemma CurrentUserIsFirstUser()
    ensures MockCurrentUser == MockUsers[0]
    ensures GetMockUser(MockCurrentUser.id) == Some(MockCurrentUser)
  {
  }

  /** An id no user has finds nothing. */
  lemma UnknownUserNotFound()
    ensures GetMockUser("user-99").None?
  {
    forall i | 0 <= i < |MockUsers|
      ensures MockUsers[i].id != "user-99"
    {
    }
  }

  /** Mentions resolve by first name in any letter case. */
  lemma NameLookupIgnoresCase()
    ensures GetMockUserByName("sarah") == Some(MockCurrentUser)
    ensures GetMockUserByName("SARAH") == Some(MockCurrentUser)
    ensures GetMockUserByName("Sarah") == Some(MockCurrentUser)
  {
    assert ToLower("Sarah") == "sarah" == ToLower("sarah") == ToLower("SARAH");
  }

  /** No user's first name starts with an "n" in either case. */
  lemma NoFirstNameStartsWithN()
    ensures forall i :: 0 <= i < |MockUsers| ==> MockUsers[i].firstName != [] && LowerChar(MockUsers[i].firstName[0]) != 'n'
  {
  }

  /** A first name nobody has finds nothing. */
  lemma UnknownNameNotFound()
    ensures GetMockUserByName("Nobody").None?
  {
    NoFirstNameStartsWithN();
    forall u | u in MockUsers
      ensures ToLower(u.firstName) != ToLower("Nobody")
    {
      var i :| 0 <= i < |MockUsers| && MockUsers[i] == u;
      assert ToLower(u.firstName)[0] != ToLower("Nobody")[0];
    }
  }
}
