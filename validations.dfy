/**
 * lib/validations.ts: the zod schemas as predicates over typed records.
 * Each Parse function returns the parsed record (defaults filled in) or None
 * where zod's `parse` would throw a ZodError.
 */
module Validations {
  import opened Common
  import Utils

  // ---------------------------------------------------------------------------
  // Malaysian phone numbers: /^\+60\d{9,10}$/
  // ---------------------------------------------------------------------------

  predicate IsMalaysianPhone(s: string)
  {
    (|s| == 12 || |s| == 13) && s[..3] == "+60" && AllDigits(s[3..])
  }

  /** `malaysianPhoneSchema`. */
  function ParsePhone(s: string): (r: Option<string>)
    ensures r.Some? <==> 12 <= |s| <= 13 && s[..3] == "+60" && AllDigits(s[3..])
    ensures r.Some? ==> r.value == s
  {
    if IsMalaysianPhone(s) then Some(s) else None
  }

  /** Every accepted phone number is rewritten by formatMalaysianPhone at its start. */
  lemma AcceptedPhoneFormats(s: string)
    requires IsMalaysianPhone(s)
    ensures Utils.FormatMalaysianPhone(s) == "+60 " + s[3..5] + "-" + s[5..8] + " " + s[8..12] + s[12..]
  {
    assert s[0..3] == s[..3];
    forall k | 0 <= k < 9
      ensures IsDigit(s[3..12][k])
    {
      assert s[3..12][k] == s[3..][k];
    }
    assert Utils.PhoneAt(s, 0);
    Utils.FormatMalaysianPhoneRewritesLeftmost(s, 0);
    assert s[..0] + "+60 " == "+60 ";
  }

  // ---------------------------------------------------------------------------
  // registerSchema
  // ---------------------------------------------------------------------------

  datatype RegisterInput = RegisterInput(name: string, email: string, password: string, phone: Option<string>)

  function ParseRegister(input: RegisterInput): (r: Option<RegisterInput>)
    ensures r.Some? <==>
      && Utf16Length(input.name) >= 2
      && Utf16Length(input.password) >= 8
      && (input.phone.Some? ==> IsMalaysianPhone(input.phone.value))
    ensures r.Some? ==> r.value == input
  {
    if Utf16Length(input.name) >= 2 && Utf16Length(input.password) >= 8 && (input.phone.None? || ParsePhone(input.phone.value).Some?)
    then Some(input)
    else None
  }

  // ---------------------------------------------------------------------------
  // createCampaignSchema and updateCampaignSchema
  // ---------------------------------------------------------------------------

  const CampaignCategories: set<string> := {
    "EDUCATION", "HEALTHCARE", "FOOD_RELIEF", "SHELTER", "DISASTER_RELIEF", "ORPHAN_CARE",
    "ELDERLY_CARE", "ZAKAT", "SADAQAH", "QURBANI", "WAKAF", "OTHER"
  }

  predicate CampaignTitleOk(t: string) { 5 <= Utf16Length(t) <= 100 }
  predicate CampaignDescriptionOk(d: string) { Utf16Length(d) >= 20 }
  predicate CampaignGoalOk(g: real) { 0.0 < g <= 10000000.0 }
  predicate PositiveIfPresent(x: Option<real>) { x.Some? ==> x.value > 0.0 }

  /** A campaign body as sent; the optional and defaulted keys may be missing. */
  datatype CampaignInput = CampaignInput(
    title: string, description: string, story: Option<string>, goalAmount: real,
    currency: Option<string>, category: string, endDate: Option<string>,
    tags: Option<seq<string>>, minDonation: Option<real>, maxDonation: Option<real>,
    teamId: Option<Id>, allowRecurring: Option<bool>, allowAnonymous: Option<bool>)

  /** A parsed campaign body: the defaulted keys are always present. */
  datatype CampaignData = CampaignData(
    title: string, description: string, story: Option<string>, goalAmount: real,
    currency: string, category: string, endDate: Option<string>,
    tags: Option<seq<string>>, minDonation: Option<real>, maxDonation: Option<real>,
    teamId: Option<Id>, allowRecurring: bool, allowAnonymous: bool)

  function ParseCreateCampaign(x: CampaignInput): (r: Option<CampaignData>)
    ensures r.Some? <==>
      && 5 <= Utf16Length(x.title) <= 100
      && Utf16Length(x.description) >= 20
      && 0.0 < x.goalAmount <= 10000000.0
      && x.category in CampaignCategories
      && (x.minDonation.Some? ==> x.minDonation.value > 0.0)
      && (x.maxDonation.Some? ==> x.maxDonation.value > 0.0)
    ensures r.Some? ==>
      && r.value.title == x.title && r.value.description == x.description
      && r.value.goalAmount == x.goalAmount && r.value.category == x.category
      && r.value.teamId == x.teamId
      && r.value.currency == (if x.currency.Some? then x.currency.value else "MYR")
      && r.value.allowRecurring == (x.allowRecurring != Some(false))
      && r.value.allowAnonymous == (x.allowAnonymous != Some(false))
  {
    if && CampaignTitleOk(x.title) && CampaignDescriptionOk(x.description) && CampaignGoalOk(x.goalAmount)
       && x.category in CampaignCategories && PositiveIfPresent(x.minDonation) && PositiveIfPresent(x.maxDonation)
    then
      Some(CampaignData(
        x.title, x.description, x.story, x.goalAmount,
        match x.currency case Some(c) => c case None => "MYR",
        x.category, x.endDate, x.tags, x.minDonation, x.maxDonation, x.teamId,
        match x.allowRecurring case Some(b) => b case None => true,
        match x.allowAnonymous case Some(b) => b case None => true))
    else None
  }

  /** An update body: `createCampaignSchema.partial()`; every key may be missing, and none is defaulted. */
  datatype CampaignPatch = CampaignPatch(
    title: Option<string>, description: Option<string>, story: Option<string>, goalAmount: Option<real>,
    currency: Option<string>, category: Option<string>, endDate: Option<string>,
    tags: Option<seq<string>>, minDonation: Option<real>, maxDonation: Option<real>,
    teamId: Option<Id>, allowRecurring: Option<bool>, allowAnonymous: Option<bool>)

  function ParseUpdateCampaign(p: CampaignPatch): (r: Option<CampaignPatch>)
    ensures r.Some? <==>
      && (p.title.Some? ==> 5 <= Utf16Length(p.title.value) <= 100)
      && (p.description.Some? ==> Utf16Length(p.description.value) >= 20)
      && (p.goalAmount.Some? ==> 0.0 < p.goalAmount.value <= 10000000.0)
      && (p.category.Some? ==> p.category.value in CampaignCategories)
      && (p.minDonation.Some? ==> p.minDonation.value > 0.0)
      && (p.maxDonation.Some? ==> p.maxDonation.value > 0.0)
    ensures r.Some? ==> r.value == p
  {
    if && (p.title.None? || CampaignTitleOk(p.title.value))
       && (p.description.None? || CampaignDescriptionOk(p.description.value))
       && (p.goalAmount.None? || CampaignGoalOk(p.goalAmount.value))
       && (p.category.None? || p.category.value in CampaignCategories)
       && PositiveIfPresent(p.minDonation) && PositiveIfPresent(p.maxDonation)
    then Some(p)
    else None
  }

  datatype CampaignField =
    | Title | Description | Story | GoalAmount | Currency | Category | EndDate
    | Tags | MinDonation | MaxDonation | TeamId | AllowRecurring | AllowAnonymous

  function Keep<T>(keep: set<CampaignField>, f: CampaignField, v: T): Option<T>
  {
    if f in keep then Some(v) else None
  }

  /** The update body that sends exactly the fields in `keep` of an accepted campaign. */
  function PatchOf(d: CampaignData, keep: set<CampaignField>): CampaignPatch
  {
    CampaignPatch(
      Keep(keep, Title, d.title), Keep(keep, Description, d.description),
      if Story in keep then d.story else None, Keep(keep, GoalAmount, d.goalAmount),
      Keep(keep, Currency, d.currency), Keep(keep, Category, d.category),
      if EndDate in keep then d.endDate else None, if Tags in keep then d.tags else None,
      if MinDonation in keep then d.minDonation else None, if MaxDonation in keep then d.maxDonation else None,
      if TeamId in keep then d.teamId else None,
      Keep(keep, AllowRecurring, d.allowRecurring), Keep(keep, AllowAnonymous, d.allowAnonymous))
  }

  /** Any subset of the fields of an acceptable campaign is an acceptable update. */
  lemma UpdateCampaignAcceptsAnySubset(x: CampaignInput, keep: set<CampaignField>)
    requires ParseCreateCampaign(x).Some?
    ensures ParseUpdateCampaign(PatchOf(ParseCreateCampaign(x).value, keep)) == Some(PatchOf(ParseCreateCampaign(x).value, keep))
  {
  }

  /** The empty update is accepted, and the update schema applies no default. */
  lemma UpdateCampaignEmptyAccepted()
    ensures ParseUpdateCampaign(PatchOf(CampaignData("", "", None, 0.0, "", "", None, None, None, None, None, false, false), {})).Some?
    ensures PatchOf(CampaignData("", "", None, 0.0, "", "", None, None, None, None, None, false, false), {}).currency.None?
  {
  }

  // ---------------------------------------------------------------------------
  // createDonationSchema
  // ---------------------------------------------------------------------------

  datatype DonationInput = DonationInput(
    amount: real, currency: Option<string>, donorName: Option<string>, donorEmail: Option<string>,
    message: Option<string>, isAnonymous: Option<bool>, isRecurring: Option<bool>,
    recurringFrequency: Option<string>)

  datatype DonationData = DonationData(
    amount: real, currency: string, donorName: Option<string>, donorEmail: Option<string>,
    message: Option<string>, isAnonymous: bool, isRecurring: bool, recurringFrequency: Option<string>)

  function ParseCreateDonation(x: DonationInput): (r: Option<DonationData>)
    ensures r.Some? <==>
      && x.amount >= 1.0
      && (x.message.Some? ==> Utf16Length(x.message.value) <= 500)
      && (x.recurringFrequency.Some? ==> x.recurringFrequency.value in {"monthly", "weekly"})
    ensures r.Some? ==>
      && r.value.amount == x.amount && r.value.message == x.message
      && r.value.currency == (if x.currency.Some? then x.currency.value else "MYR")
      && r.value.isAnonymous == (x.isAnonymous == Some(true))
      && r.value.isRecurring == (x.isRecurring == Some(true))
  {
    if && x.amount > 0.0 && x.amount >= 1.0
       && (x.message.None? || Utf16Length(x.message.value) <= 500)
       && (x.recurringFrequency.None? || x.recurringFrequency.value == "monthly" || x.recurringFrequency.value == "weekly")
    then
      Some(DonationData(
        x.amount, match x.currency case Some(c) => c case None => "MYR",
        x.donorName, x.donorEmail, x.message,
        match x.isAnonymous case Some(b) => b case None => false,
        match x.isRecurring case Some(b) => b case None => false,
        x.recurringFrequency))
    else None
  }

  // ---------------------------------------------------------------------------
  // createTeamSchema and updateTeamSchema
  // ---------------------------------------------------------------------------

  predicate TeamNameOk(n: string) { 3 <= Utf16Length(n) <= 50 }
  predicate TeamDescriptionOk(d: string) { Utf16Length(d) >= 10 }

  datatype TeamInput = TeamInput(
    name: string, description: Option<string>, goalAmount: real, currency: Option<string>,
    avatar: Option<string>, maxMembers: Option<real>)

  datatype TeamData = TeamData(
    name: string, description: Option<string>, goalAmount: real, currency: string,
    avatar: Option<string>, maxMembers: Option<real>)

  function ParseCreateTeam(x: TeamInput): (r: Option<TeamData>)
    ensures r.Some? <==>
      && 3 <= Utf16Length(x.name) <= 50
      && (x.description.Some? ==> Utf16Length(x.description.value) >= 10)
      && x.goalAmount > 0.0
      && (x.maxMembers.Some? ==> x.maxMembers.value > 0.0)
    ensures r.Some? ==>
      && r.value.name == x.name && r.value.description == x.description && r.value.goalAmount == x.goalAmount
      && r.value.currency == (if x.currency.Some? then x.currency.value else "MYR")
  {
    if && TeamNameOk(x.name) && (x.description.None? || TeamDescriptionOk(x.description.value))
       && x.goalAmount > 0.0 && PositiveIfPresent(x.maxMembers)
    then
      Some(TeamData(x.name, x.description, x.goalAmount,
        match x.currency case Some(c) => c case None => "MYR", x.avatar, x.maxMembers))
    else None
  }

  datatype TeamPatch = TeamPatch(
    name: Option<string>, description: Option<string>, goalAmount: Option<real>, currency: Option<string>,
    avatar: Option<string>, maxMembers: Option<real>)

  function ParseUpdateTeam(p: TeamPatch): (r: Option<TeamPatch>)
    ensures r.Some? <==>
      && (p.name.Some? ==> 3 <= Utf16Length(p.name.value) <= 50)
      && (p.description.Some? ==> Utf16Length(p.description.value) >= 10)
      && (p.goalAmount.Some? ==> p.goalAmount.value > 0.0)
      && (p.maxMembers.Some? ==> p.maxMembers.value > 0.0)
    ensures r.Some? ==> r.value == p
  {
    if && (p.name.None? || TeamNameOk(p.name.value))
       && (p.description.None? || TeamDescriptionOk(p.description.value))
       && (p.goalAmount.None? || p.goalAmount.value > 0.0)
       && PositiveIfPresent(p.maxMembers)
    then Some(p)
    else None
  }

  /** Any subset of the fields of an acceptable team is an acceptable update. */
  lemma UpdateTeamAcceptsAnySubset(x: TeamInput, name: bool, description: bool, goal: bool, currency: bool, avatar: bool, maxMembers: bool)
    requires ParseCreateTeam(x).Some?
    ensures
      var d := ParseCreateTeam(x).value;
      ParseUpdateTeam(TeamPatch(
        if name then Some(d.name) else None, if description then d.description else None,
        if goal then Some(d.goalAmount) else None, if currency then Some(d.currency) else None,
        if avatar then d.avatar else None, if maxMembers then d.maxMembers else None)).Some?
  {
  }

  // ---------------------------------------------------------------------------
  // createChallengeSchema and trackShareSchema
  // ---------------------------------------------------------------------------

  const ChallengeTypes: set<string> := {"MOST_RAISED", "MOST_DONORS", "MOST_CAMPAIGNS", "FASTEST_GOAL"}

  /** The kinds of JSON value a request body can carry in a field. */
  datatype JsonKind = JsonObject | JsonArray | JsonString | JsonNumber | JsonBoolean | JsonNull

  datatype ChallengeInput = ChallengeInput(
    name: string, description: string, startDate: string, endDate: string, kind: string, prize: Option<string>,
    rules: Option<JsonKind>)

  /** `rules: z.record(z.any()).optional()`: a missing field, or a plain object with any values. */
  predicate RulesOk(rules: Option<JsonKind>)
  {
    rules.None? || rules.value == JsonObject
  }

  function ParseCreateChallenge(x: ChallengeInput): (r: Option<ChallengeInput>)
    ensures r.Some? <==>
      && Utf16Length(x.name) >= 3 && Utf16Length(x.description) >= 10 && x.kind in ChallengeTypes
      && (x.rules.Some? ==> x.rules.value == JsonObject)
    ensures r.Some? ==> r.value == x
  {
    if Utf16Length(x.name) >= 3 && Utf16Length(x.description) >= 10 && x.kind in ChallengeTypes && RulesOk(x.rules)
    then Some(x)
    else None
  }

  /**
   * Lengths are JavaScript's: "Hi🙏!" has four characters but five UTF-16
   * code units, so it passes the 5-character minimum of a campaign title.
   */
  lemma TitleLengthCountsCodeUnits()
    ensures |"Hi\U{1F64F}!"| == 4
    ensures CampaignTitleOk("Hi\U{1F64F}!")
  {
    var t := "Hi\U{1F64F}!";
    assert t[..3] == "Hi\U{1F64F}" && t[..3][..2] == "Hi" && "Hi"[..1] == "H";
  }

  const SharePlatforms: set<string> := {"FACEBOOK", "TWITTER", "WHATSAPP", "INSTAGRAM", "TELEGRAM", "EMAIL"}

  datatype ShareInput = ShareInput(campaignId: string, platform: string)

  function ParseTrackShare(x: ShareInput): (r: Option<ShareInput>)
    ensures r.Some? <==> x.platform in SharePlatforms
    ensures r.Some? ==> r.value == x
  {
    if x.platform in SharePlatforms then Some(x) else None
  }
}
