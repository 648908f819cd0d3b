/**
 * The endpoint catalog of lib/api.ts: the `Endpoint` record and the two
 * constant arrays the page lists one after the other. The facts about the
 * catalog that the page's and the snippet generator's per-id tables
 * silently rely on are stated as lemmas.
 */
module Catalog {

  /** One predefined GraphQL query. `query` is the operation name, `graphql`
      the document text, `variables` maps each declared variable to its
      GraphQL type. The Lucide icon component is not modelled. */
  datatype Endpoint = Endpoint(
    id: string,
    name: string,
    description: string,
    category: string,
    query: string,
    requiresAuth: bool,
    variables: map<string, string>,
    graphql: string
  )

  const UserProfile: Endpoint :=
    Endpoint(
      id := "userProfile",
      name := "User Profile Information",
      description := "Fetches basic user profile data, including contest badges, social media links, personal details, and activity counts.",
      category := "Profile",
      query := "userPublicProfile",
      requiresAuth := false,
      variables := map["username" := "String!"],
      graphql := UserProfileDocument
    )

  const LanguageStats: Endpoint :=
    Endpoint(
      id := "languageStats",
      name := "Programming Language Statistics",
      description := "Retrieves problems solved broken down by programming language.",
      category := "Statistics",
      query := "languageStats",
      requiresAuth := false,
      variables := map["username" := "String!"],
      graphql := LanguageStatsDocument
    )

  const SkillStats: Endpoint :=
    Endpoint(
      id := "skillStats",
      name := "Problem-Solving Skills Statistics",
      description := "Provides problems solved categorized by skill areas (advanced, intermediate, fundamental).",
      category := "Statistics",
      query := "skillStats",
      requiresAuth := false,
      variables := map["username" := "String!"],
      graphql := SkillStatsDocument
    )

  const ContestRanking: Endpoint :=
    Endpoint(
      id := "contestRanking",
      name := "Contest History and Rankings",
      description := "Gathers a user's contest participation history and ranking details.",
      category := "Contest",
      query := "userContestRankingInfo",
      requiresAuth := false,
      variables := map["username" := "String!"],
      graphql := ContestRankingDocument
    )

  const ProblemProgress: Endpoint :=
    Endpoint(
      id := "problemProgress",
      name := "Problem Progress by Difficulty",
      description := "Offers a detailed breakdown of a user's problem progress by difficulty level (Easy, Medium, Hard).",
      category := "Progress",
      query := "userProfileUserQuestionProgress",
      requiresAuth := false,
      variables := map["userSlug" := "String!"],
      graphql := ProblemProgressDocument
    )

  const SubmissionStats: Endpoint :=
    Endpoint(
      id := "submissionStats",
      name := "Overall Submission Statistics",
      description := "Provides overall submission statistics and problem counts by difficulty.",
      category := "Statistics",
      query := "userProblemsSolved",
      requiresAuth := false,
      variables := map["username" := "String!"],
      graphql := SubmissionStatsDocument
    )

  const UserCalendar: Endpoint :=
    Endpoint(
      id := "userCalendar",
      name := "User Submission Calendar",
      description := "Fetches a user's activity calendar, including active years, streaks, total active days, and submission counts.",
      category := "Activity",
      query := "userProfileCalendar",
      requiresAuth := false,
      variables := map["username" := "String!"],
      graphql := UserCalendarDocument
    )

  const RecentSubmissions: Endpoint :=
    Endpoint(
      id := "recentSubmissions",
      name := "Recent Accepted Submissions",
      description := "Lists a specified number of a user's most recently accepted (solved) problems.",
      category := "Activity",
      query := "recentAcSubmissions",
      requiresAuth := false,
      variables := map["username" := "String!", "limit" := "Int!"],
      graphql := RecentSubmissionsDocument
    )

  const DailyChallenge: Endpoint :=
    Endpoint(
      id := "dailyChallenge",
      name := "Daily Coding Challenge Information",
      description := "Retrieves comprehensive details about the current day's Daily Coding Challenge question.",
      category := "Challenge",
      query := "questionOfToday",
      requiresAuth := false,
      variables := map[],
      graphql := DailyChallengeDocument
    )

  const UpcomingContests: Endpoint :=
    Endpoint(
      id := "upcomingContests",
      name := "Upcoming Contests",
      description := "Retrieves information about all upcoming contests.",
      category := "Contest",
      query := "getContests",
      requiresAuth := false,
      variables := map[],
      graphql := UpcomingContestsDocument
    )

  const StreakCounter: Endpoint :=
    Endpoint(
      id := "streakCounter",
      name := "User Streak Counter",
      description := "Retrieves current daily streak information for the authenticated user.",
      category := "Activity",
      query := "getStreakCounter",
      requiresAuth := true,
      variables := map[],
      graphql := StreakCounterDocument
    )

  const CurrentTimestamp: Endpoint :=
    Endpoint(
      id := "currentTimestamp",
      name := "Current Server Timestamp",
      description := "Gets the current server timestamp in Unix epoch seconds (with milliseconds).",
      category := "System",
      query := "currentTimestamp",
      requiresAuth := false,
      variables := map[],
      graphql := CurrentTimestampDocument
    )

  const ActiveBadge: Endpoint :=
    Endpoint(
      id := "activeBadge",
      name := "Active User Badge Information",
      description := "Specifically fetches details about a user's currently active badge.",
      category := "Profile",
      query := "getUserProfile",
      requiresAuth := false,
      variables := map["username" := "String!"],
      graphql := ActiveBadgeDocument
    )

  const ChallengeMedal: Endpoint :=
    Endpoint(
      id := "challengeMedal",
      name := "Daily Coding Challenge Medal Information",
      description := "Provides the name and icon configuration for a Daily Coding Challenge medal for a specific year and month.",
      category := "Challenge",
      query := "codingChallengeMedal",
      requiresAuth := true,
      variables := map["year" := "Int!", "month" := "Int!"],
      graphql := ChallengeMedalDocument
    )

  const UserBadges: Endpoint :=
    Endpoint(
      id := "userBadges",
      name := "User Badges Information",
      description := "Fetches information about a user's earned badges and upcoming badges.",
      category := "Profile",
      query := "userBadges",
      requiresAuth := false,
      variables := map["username" := "String!"],
      graphql := UserBadgesDocument
    )

  // The documents, each written as its operation header (`query <name>`),
  // the rest of its first line (variable definitions, if any) and its
  // selection set.

  const UserProfileDocument: string :=
    "query userPublicProfile"
      + ("($username: String!) {\n"
      + ("  matchedUser(username: $username) {\n"
         + "    contestBadge { name expired hoverText icon }\n"
         + "    username\n"
         + "    githubUrl\n"
         + "    twitterUrl\n"
         + "    linkedinUrl\n"
         + "    profile {\n"
         + "      ranking userAvatar realName aboutMe school websites countryName\n"
         + "      company jobTitle skillTags postViewCount postViewCountDiff\n"
         + "      reputation reputationDiff solutionCount solutionCountDiff\n"
         + "      categoryDiscussCount categoryDiscussCountDiff certificationLevel\n"
         + "    }\n"
         + "  }\n"
         + "}"))

  const LanguageStatsDocument: string :=
    "query languageStats"
      + ("($username: String!) {\n"
      + ("  matchedUser(username: $username) {\n"
         + "    languageProblemCount { languageName problemsSolved }\n"
         + "  }\n"
         + "}"))

  const SkillStatsDocument: string :=
    "query skillStats"
      + ("($username: String!) {\n"
      + ("  matchedUser(username: $username) {\n"
         + "    tagProblemCounts {\n"
         + "      advanced { tagName tagSlug problemsSolved }\n"
         + "      intermediate { tagName tagSlug problemsSolved }\n"
         + "      fundamental { tagName tagSlug problemsSolved }\n"
         + "    }\n"
         + "  }\n"
         + "}"))

  const ContestRankingDocument: string :=
    "query userContestRankingInfo"
      + ("($username: String!) {\n"
      + ("  userContestRanking(username: $username) {\n"
         + "    attendedContestsCount rating globalRanking totalParticipants\n"
         + "    topPercentage badge { name }\n"
         + "  }\n"
         + "  userContestRankingHistory(username: $username) {\n"
         + "    attended trendDirection problemsSolved totalProblems\n"
         + "    finishTimeInSeconds rating ranking\n"
         + "    contest { title startTime }\n"
         + "  }\n"
         + "}"))

  const ProblemProgressDocument: string :=
    "query userProfileUserQuestionProgress"
      + ("($userSlug: String!) {\n"
      + ("  userProfileUserQuestionProgress(userSlug: $userSlug) {\n"
         + "    numAcceptedQuestions { difficulty count }\n"
         + "    numFailedQuestions { difficulty count }\n"
         + "    numUntouchedQuestions { difficulty count }\n"
         + "  }\n"
         + "}"))

  const SubmissionStatsDocument: string :=
    "query userProblemsSolved"
      + ("($username: String!) {\n"
      + ("  allQuestionsCount { difficulty count }\n"
         + "  matchedUser(username: $username) {\n"
         + "    submitStats {\n"
         + "      acSubmissionNum { difficulty count submissions }\n"
         + "      totalSubmissionNum { difficulty count submissions }\n"
         + "    }\n"
         + "  }\n"
         + "}"))

  const UserCalendarDocument: string :=
    "query userProfileCalendar"
      + ("($username: String!) {\n"
      + ("  matchedUser(username: $username) {\n"
         + "    userCalendar {\n"
         + "      activeYears\n"
         + "      streak\n"
         + "      totalActiveDays\n"
         + "      submissionCalendar\n"
         + "    }\n"
         + "  }\n"
         + "}"))

  const RecentSubmissionsDocument: string :=
    "query recentAcSubmissions"
      + ("($username: String!, $limit: Int!) {\n"
      + ("  recentAcSubmissionList(username: $username, limit: $limit) {\n"
         + "    id title titleSlug timestamp\n"
         + "  }\n"
         + "}"))

  const DailyChallengeDocument: string :=
    "query questionOfToday"
      + (" {\n"
      + ("  activeDailyCodingChallengeQuestion {\n"
         + "    date\n"
         + "    link\n"
         + "    question {\n"
         + "      titleSlug\n"
         + "      title\n"
         + "      difficulty\n"
         + "      frontendQuestionId: questionFrontendId\n"
         + "      status\n"
         + "      topicTags { name id slug }\n"
         + "    }\n"
         + "  }\n"
         + "}"))

  const UpcomingContestsDocument: string :=
    "query getContests"
      + (" {\n"
      + ("  allContests {\n"
         + "    title\n"
         + "    titleSlug\n"
         + "    startTime\n"
         + "    duration\n"
         + "    isVirtual\n"
         + "  }\n"
         + "}"))

  const StreakCounterDocument: string :=
    "query getStreakCounter"
      + (" {\n"
      + ("  streakCounter {\n"
         + "    streakCount\n"
         + "    daysSkipped\n"
         + "    currentDayCompleted\n"
         + "  }\n"
         + "}"))

  const CurrentTimestampDocument: string :=
    "query currentTimestamp"
      + (" {\n"
      + ("  currentTimestamp\n"
         + "}"))

  const ActiveBadgeDocument: string :=
    "query getUserProfile"
      + ("($username: String!) {\n"
      + ("  matchedUser(username: $username) {\n"
         + "    activeBadge { displayName icon }\n"
         + "  }\n"
         + "}"))

  const ChallengeMedalDocument: string :=
    "query codingChallengeMedal"
      + ("($year: Int!, $month: Int!) {\n"
      + ("  dailyChallengeMedal(year: $year, month: $month) {\n"
         + "    name\n"
         + "    config { icon }\n"
         + "  }\n"
         + "}"))

  const UserBadgesDocument: string :=
    "query userBadges"
      + ("($username: String!) {\n"
      + ("  matchedUser(username: $username) {\n"
         + "    badges {\n"
         + "      id name displayName icon hoverText\n"
         + "      creationDate category\n"
         + "    }\n"
         + "    upcomingBadges { name icon progress }\n"
         + "  }\n"
         + "}"))

  const Endpoints: seq<Endpoint> := [UserProfile, LanguageStats, SkillStats, ContestRanking, ProblemProgress, SubmissionStats, UserCalendar, RecentSubmissions, DailyChallenge, UpcomingContests]
  const LimitedEndpoints: seq<Endpoint> := [StreakCounter, CurrentTimestamp, ActiveBadge, ChallengeMedal, UserBadges]

  /** `[...endpoints, ...limitedEndpoints]`, the list the page displays. */
  const AllEndpoints: seq<Endpoint> := Endpoints + LimitedEndpoints


  /** `g` opens with `query <name>` followed by the variable list or the
      selection set, so `name` is the operation it declares. */
  predicate DeclaresOperation(g: string, name: string) {
    "query " + name + "(" <= g || "query " + name + " " <= g
  }

  lemma CatalogSizes()
    ensures |Endpoints| == 10 && |LimitedEndpoints| == 5 && |AllEndpoints| == 15
  {
  }

  /** No two displayed entries share an id, so an id names one entry. */
  lemma IdsDistinct()
    ensures forall i, j :: 0 <= i < j < |AllEndpoints| ==> AllEndpoints[i].id != AllEndpoints[j].id
  {
  }

  /** Exactly `streakCounter` and `challengeMedal` need authentication. */
  lemma AuthRequiredExactly()
    ensures forall e :: e in AllEndpoints ==>
      (e.requiresAuth <==> e.id == "streakCounter" || e.id == "challengeMedal")
  {
  }

  /** The entries whose documents take no variables. */
  const NoVariableIds: set<string> :=
    {"dailyChallenge", "upcomingContests", "streakCounter", "currentTimestamp"}

  /** The variable declarations an entry with this id carries: `userSlug` for
      `problemProgress`, `username` and `limit` for `recentSubmissions`,
      `year` and `month` for `challengeMedal`, nothing for the four entries of
      NoVariableIds, and `username` alone for every other entry. */
  function DeclaredFor(id: string): map<string, string> {
    if id == "problemProgress" then map["userSlug" := "String!"]
    else if id == "recentSubmissions" then map["username" := "String!", "limit" := "Int!"]
    else if id == "challengeMedal" then map["year" := "Int!", "month" := "Int!"]
    else if id in NoVariableIds then map[]
    else map["username" := "String!"]
  }

  lemma {:induction false} FirstTableFollowsIds()
    ensures forall e :: e in Endpoints ==> e.variables == DeclaredFor(e.id)
  {
    assert UserProfile.variables == DeclaredFor(UserProfile.id);
    assert LanguageStats.variables == DeclaredFor(LanguageStats.id);
    assert SkillStats.variables == DeclaredFor(SkillStats.id);
    assert ContestRanking.variables == DeclaredFor(ContestRanking.id);
    assert ProblemProgress.variables == DeclaredFor(ProblemProgress.id);
    assert SubmissionStats.variables == DeclaredFor(SubmissionStats.id);
    assert UserCalendar.variables == DeclaredFor(UserCalendar.id);
    assert RecentSubmissions.variables == DeclaredFor(RecentSubmissions.id);
    assert DailyChallenge.variables == DeclaredFor(DailyChallenge.id);
    assert UpcomingContests.variables == DeclaredFor(UpcomingContests.id);
  }

  lemma {:induction false} LimitedTableFollowsIds()
    ensures forall e :: e in LimitedEndpoints ==> e.variables == DeclaredFor(e.id)
  {
    assert StreakCounter.variables == DeclaredFor(StreakCounter.id);
    assert CurrentTimestamp.variables == DeclaredFor(CurrentTimestamp.id);
    assert ActiveBadge.variables == DeclaredFor(ActiveBadge.id);
    assert ChallengeMedal.variables == DeclaredFor(ChallengeMedal.id);
    assert UserBadges.variables == DeclaredFor(UserBadges.id);
  }

  /** Each displayed entry declares exactly the variables DeclaredFor gives its id. */
  lemma VariablesFollowIds()
    ensures forall e :: e in AllEndpoints ==> e.variables == DeclaredFor(e.id)
  {
    FirstTableFollowsIds();
    LimitedTableFollowsIds();
  }

  /** `problemProgress` is the one entry that takes `userSlug` and not `username`. */
  lemma UserSlugOnlyInProblemProgress()
    ensures forall e :: e in AllEndpoints ==>
      ("userSlug" in e.variables && "username" !in e.variables <==> e.id == "problemProgress")
  {
    VariablesFollowIds();
  }

  /** `recentSubmissions` declares both `username` and `limit`. */
  lemma RecentSubmissionsDeclaresLimit()
    ensures forall e :: e in AllEndpoints && e.id == "recentSubmissions" ==>
      "username" in e.variables && "limit" in e.variables
  {
    VariablesFollowIds();
  }

  /** DeclaredFor gives nothing exactly for the ids of NoVariableIds. */
  lemma DeclaredForEmpty(id: string)
    ensures DeclaredFor(id) == map[] <==> id in NoVariableIds
  {
    if id !in NoVariableIds {
      var k := if id == "problemProgress" then "userSlug"
               else if id == "challengeMedal" then "year" else "username";
      assert k in DeclaredFor(id);
    }
  }

  /** Exactly the four entries of NoVariableIds declare no variables. */
  lemma EmptyDeclarations()
    ensures forall e :: e in AllEndpoints ==> (e.variables == map[] <==> e.id in NoVariableIds)
  {
    VariablesFollowIds();
    forall e | e in AllEndpoints ensures e.variables == map[] <==> e.id in NoVariableIds {
      DeclaredForEmpty(e.id);
    }
  }

  /** The userProfile document declares `userPublicProfile`, the entry's operation name
      (lib/api.ts:45, 48). */
  lemma UserProfileOperation()
    ensures DeclaresOperation(UserProfileDocument, "userPublicProfile")
  {
    assert "query " + "userPublicProfile" + "(" == "query userPublicProfile(";
    assert "query userPublicProfile(" <= UserProfileDocument;
  }

  /** The languageStats document declares `languageStats`, the entry's operation name
      (lib/api.ts:71, 74). */
  lemma LanguageStatsOperation()
    ensures DeclaresOperation(LanguageStatsDocument, "languageStats")
  {
    assert "query " + "languageStats" + "(" == "query languageStats(";
    assert "query languageStats(" <= LanguageStatsDocument;
  }

  /** The skillStats document declares `skillStats`, the entry's operation name
      (lib/api.ts:87, 90). */
  lemma SkillStatsOperation()
    ensures DeclaresOperation(SkillStatsDocument, "skillStats")
  {
    assert "query " + "skillStats" + "(" == "query skillStats(";
    assert "query skillStats(" <= SkillStatsDocument;
  }

  /** The contestRanking document declares `userContestRankingInfo`, the entry's operation name
      (lib/api.ts:107, 110). */
  lemma ContestRankingOperation()
    ensures DeclaresOperation(ContestRankingDocument, "userContestRankingInfo")
  {
    assert "query " + "userContestRankingInfo" + "(" == "query userContestRankingInfo(";
    assert "query userContestRankingInfo(" <= ContestRankingDocument;
  }

  /** The problemProgress document declares `userProfileUserQuestionProgress`, the entry's operation name
      (lib/api.ts:129, 132). */
  lemma ProblemProgressOperation()
    ensures DeclaresOperation(ProblemProgressDocument, "userProfileUserQuestionProgress")
  {
    assert "query " + "userProfileUserQuestionProgress" + "(" == "query userProfileUserQuestionProgress(";
    assert "query userProfileUserQuestionProgress(" <= ProblemProgressDocument;
  }

  /** The submissionStats document declares `userProblemsSolved`, the entry's operation name
      (lib/api.ts:147, 150). */
  lemma SubmissionStatsOperation()
    ensures DeclaresOperation(SubmissionStatsDocument, "userProblemsSolved")
  {
    assert "query " + "userProblemsSolved" + "(" == "query userProblemsSolved(";
    assert "query userProblemsSolved(" <= SubmissionStatsDocument;
  }

  /** The userCalendar document declares `userProfileCalendar`, the entry's operation name
      (lib/api.ts:167, 170). */
  lemma UserCalendarOperation()
    ensures DeclaresOperation(UserCalendarDocument, "userProfileCalendar")
  {
    assert "query " + "userProfileCalendar" + "(" == "query userProfileCalendar(";
    assert "query userProfileCalendar(" <= UserCalendarDocument;
  }

  /** The recentSubmissions document declares `recentAcSubmissions`, the entry's operation name
      (lib/api.ts:188, 191). */
  lemma RecentSubmissionsOperation()
    ensures DeclaresOperation(RecentSubmissionsDocument, "recentAcSubmissions")
  {
    assert "query " + "recentAcSubmissions" + "(" == "query recentAcSubmissions(";
    assert "query recentAcSubmissions(" <= RecentSubmissionsDocument;
  }

  /** The dailyChallenge document declares `questionOfToday`, the entry's operation name
      (lib/api.ts:204, 207). */
  lemma DailyChallengeOperation()
    ensures DeclaresOperation(DailyChallengeDocument, "questionOfToday")
  {
    assert "query " + "questionOfToday" + " " == "query questionOfToday ";
    assert "query questionOfToday " <= DailyChallengeDocument;
  }

  /** The upcomingContests document declares `getContests`, the entry's operation name
      (lib/api.ts:228, 231). */
  lemma UpcomingContestsOperation()
    ensures DeclaresOperation(UpcomingContestsDocument, "getContests")
  {
    assert "query " + "getContests" + " " == "query getContests ";
    assert "query getContests " <= UpcomingContestsDocument;
  }

  /** The streakCounter document declares `getStreakCounter`, the entry's operation name
      (lib/api.ts:251, 254). */
  lemma StreakCounterOperation()
    ensures DeclaresOperation(StreakCounterDocument, "getStreakCounter")
  {
    assert "query " + "getStreakCounter" + " " == "query getStreakCounter ";
    assert "query getStreakCounter " <= StreakCounterDocument;
  }

  /** The currentTimestamp document declares `currentTimestamp`, the entry's operation name
      (lib/api.ts:269, 272). */
  lemma CurrentTimestampOperation()
    ensures DeclaresOperation(CurrentTimestampDocument, "currentTimestamp")
  {
    assert "query " + "currentTimestamp" + " " == "query currentTimestamp ";
    assert "query currentTimestamp " <= CurrentTimestampDocument;
  }

  /** The activeBadge document declares `getUserProfile`, the entry's operation name
      (lib/api.ts:283, 286). */
  lemma ActiveBadgeOperation()
    ensures DeclaresOperation(ActiveBadgeDocument, "getUserProfile")
  {
    assert "query " + "getUserProfile" + "(" == "query getUserProfile(";
    assert "query getUserProfile(" <= ActiveBadgeDocument;
  }

  /** The challengeMedal document declares `codingChallengeMedal`, the entry's operation name
      (lib/api.ts:299, 302). */
  lemma ChallengeMedalOperation()
    ensures DeclaresOperation(ChallengeMedalDocument, "codingChallengeMedal")
  {
    assert "query " + "codingChallengeMedal" + "(" == "query codingChallengeMedal(";
    assert "query codingChallengeMedal(" <= ChallengeMedalDocument;
  }

  /** The userBadges document declares `userBadges`, the entry's operation name
      (lib/api.ts:316, 319). */
  lemma UserBadgesOperation()
    ensures DeclaresOperation(UserBadgesDocument, "userBadges")
  {
    assert "query " + "userBadges" + "(" == "query userBadges(";
    assert "query userBadges(" <= UserBadgesDocument;
  }

  /** Every entry's `query` is the operation its document declares. */
  lemma OperationNamesMatch()
    ensures forall e :: e in AllEndpoints ==> DeclaresOperation(e.graphql, e.query)
  {
    UserProfileOperation();
    LanguageStatsOperation();
    SkillStatsOperation();
    ContestRankingOperation();
    ProblemProgressOperation();
    SubmissionStatsOperation();
    UserCalendarOperation();
    RecentSubmissionsOperation();
    DailyChallengeOperation();
    UpcomingContestsOperation();
    StreakCounterOperation();
    CurrentTimestampOperation();
    ActiveBadgeOperation();
    ChallengeMedalOperation();
    UserBadgesOperation();
  }

  /** Every entry names an operation and carries a document, so both are
      truthy wherever a JavaScript caller tests them. */
  lemma NamesPresent()
    ensures forall e :: e in AllEndpoints ==> e.query != "" && e.graphql != ""
  {
    OperationNamesMatch();
    forall e | e in AllEndpoints ensures e.graphql != "" {
      assert |"query " + e.query| <= |e.graphql|;
    }
  }
}
