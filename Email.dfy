/**
 * The email categoriser and batch processor (`EmailHandlerAI`).
 *
 * An email is a dictionary whose keys may be missing; here each field is an
 * `Option`. Processing timestamps are not modelled.
 */
module Email {
  import opened Wrappers
  import opened Strings

  const Urgent: string := "urgent"
  const Important: string := "important"
  const Normal: string := "normal"
  const LowPriority: string := "low_priority"
  const DefaultCategories: seq<string> := [Urgent, Important, Normal, LowPriority]

  const UrgentKeywords: seq<string> := ["urgent", "asap", "critical", "emergency"]
  const ImportantKeywords: seq<string> := ["important", "required", "action needed"]
  const NormalKeywords: seq<string> := ["fyi", "update", "notification"]
  const AllKeywords: seq<string> := UrgentKeywords + ImportantKeywords + NormalKeywords

  /** The lower-cased fixed part of a fabricated subject: "email subject ". */
  const SubjectStem: string := "email subject "

  const DefaultMaxEmails: int := 50
  const DefaultBatchSize: int := 10
  const ProcessedStatus: string := "processed"
  const ResponsePrefix: string := "Thank you for your email regarding '"
  const ResponseSuffix: string := "'. We have received it and will respond shortly."

  /** The `email_handler` section of the configuration; `None` is a missing key. */
  datatype EmailConfig = EmailConfig(
    maxEmails: Option<int>,
    batchSize: Option<int>,
    categories: Option<seq<string>>,
    autoResponse: Option<bool>)

  datatype Email = Email(id: Option<string>, subject: Option<string>, sender: Option<string>, content: Option<string>)

  /**
   * One processed email. The keys `auto_response_sent` and `response` are
   * present only for an auto-answered email: a flag and an `Option` here.
   */
  datatype ProcessedEmail = ProcessedEmail(
    id: string,
    subject: string,
    sender: string,
    category: string,
    status: string,
    autoResponseSent: bool,
    response: Option<string>)

  datatype Statistics = Statistics(totalProcessed: nat, byCategory: map<string, nat>)

  // ---------------------------------------------------------------------------
  // Categorisation
  // ---------------------------------------------------------------------------

  /** `any(keyword in text for keyword in keywords)`. */
  function MentionsAny(text: string, keywords: seq<string>): (b: bool)
    ensures keywords == [] ==> !b
    ensures b <==> exists i :: 0 <= i < |keywords| && Contains(text, keywords[i])
  {
    exists k :: k in keywords && Contains(text, k)
  }

  /**
   * The category of a subject: the first keyword group, in priority order
   * urgent, important, normal, that the lower-cased subject mentions, or
   * 'low_priority' when it mentions none.
   */
  function CategorizeSubject(subject: string): (c: string)
    ensures c in DefaultCategories
    ensures c == Urgent <==> MentionsAny(Lower(subject), UrgentKeywords)
    ensures c == Important <==>
      !MentionsAny(Lower(subject), UrgentKeywords) && MentionsAny(Lower(subject), ImportantKeywords)
    ensures c == Normal <==>
      && !MentionsAny(Lower(subject), UrgentKeywords)
      && !MentionsAny(Lower(subject), ImportantKeywords)
      && MentionsAny(Lower(subject), NormalKeywords)
  {
    var s := Lower(subject);
    if MentionsAny(s, UrgentKeywords) then Urgent
    else if MentionsAny(s, ImportantKeywords) then Important
    else if MentionsAny(s, NormalKeywords) then Normal
    else LowPriority
  }

  /** `categorize_email`: a missing subject counts as the empty subject. */
  function CategorizeEmail(email: Email): (c: string)
    ensures c in DefaultCategories
    ensures c == CategorizeSubject(email.subject.GetOr(""))
    ensures email.subject.None? ==> c == LowPriority
  {
    assert Lower("") == "";
    CategorizeSubject(email.subject.GetOr(""))
  }

  /** An email without a subject, or with one that mentions no keyword, is low priority. */
  lemma NoKeywordIsLowPriority(email: Email)
    requires forall k :: k in AllKeywords ==>
               !Contains(Lower(email.subject.GetOr("")), k)
    ensures CategorizeEmail(email) == LowPriority
  {
    var s := Lower(email.subject.GetOr(""));
    assert forall k :: k in UrgentKeywords ==> k in AllKeywords;
    assert forall k :: k in ImportantKeywords ==> k in AllKeywords;
    assert forall k :: k in NormalKeywords ==> k in AllKeywords;
  }

  /** Priority of a category: urgent above important above normal above low priority. */
  function Rank(c: string): nat {
    if c == Urgent then 3 else if c == Important then 2 else if c == Normal then 1 else 0
  }

  lemma MentionsAnyExtend(a: string, b: string, keywords: seq<string>)
    requires MentionsAny(a, keywords)
    ensures MentionsAny(a + b, keywords) && MentionsAny(b + a, keywords)
  {
    var k :| k in keywords && Contains(a, k);
    ContainsExtendRight(a, b, k);
    ContainsExtendLeft(b, a, k);
  }

  /**
   * Adding text before or after a subject never lowers its category: the
   * keyword that decided it is still there, and the higher groups win.
   */
  lemma ExtendingSubjectNeverLowersCategory(s: string, t: string)
    ensures Rank(CategorizeSubject(s + t)) >= Rank(CategorizeSubject(s))
    ensures Rank(CategorizeSubject(t + s)) >= Rank(CategorizeSubject(s))
  {
    LowerAppend(s, t);
    LowerAppend(t, s);
    var ls, lt := Lower(s), Lower(t);
    forall ks | ks in [UrgentKeywords, ImportantKeywords, NormalKeywords] && MentionsAny(ls, ks)
      ensures MentionsAny(ls + lt, ks) && MentionsAny(lt + ls, ks)
    {
      MentionsAnyExtend(ls, lt, ks);
    }
  }

  /** Subjects that differ only in letter case fall in the same category. */
  lemma CategorizeIgnoresCase(s: string, t: string)
    requires |s| == |t|
    requires forall i :: 0 <= i < |s| ==> EqualIgnoringCase(s[i], t[i])
    ensures CategorizeSubject(s) == CategorizeSubject(t)
  {
    LowerIgnoresCase(s, t);
  }

  /** An urgent keyword wins whatever else the subject says. */
  lemma UrgentTakesPrecedence(subject: string, k: string)
    requires k in UrgentKeywords && Contains(Lower(subject), k)
    ensures CategorizeSubject(subject) == Urgent
  {
  }

  // ---------------------------------------------------------------------------
  // Processing
  // ---------------------------------------------------------------------------

  /** `_generate_auto_response`: a fixed acknowledgement quoting the subject. */
  function GenerateAutoResponse(email: Email): (r: string)
    ensures |r| == |ResponsePrefix| + |email.subject.GetOr("your message")| + |ResponseSuffix|
    ensures r[|ResponsePrefix|..|r| - |ResponseSuffix|] == email.subject.GetOr("your message")
    ensures r[..|ResponsePrefix|] == ResponsePrefix && r[|r| - |ResponseSuffix|..] == ResponseSuffix
  {
    ResponsePrefix + email.subject.GetOr("your message") + ResponseSuffix
  }

  /** The acknowledgement determines the subject it quotes. */
  lemma AutoResponseDeterminesSubject(a: Email, b: Email)
    requires GenerateAutoResponse(a) == GenerateAutoResponse(b)
    ensures a.subject.GetOr("your message") == b.subject.GetOr("your message")
  {
  }

  /** Python's `s[:k]`: a negative `k` drops `-k` elements from the end. */
  function PrefixSlice<T>(s: seq<T>, k: int): (r: seq<T>)
    ensures |r| <= |s| && r == s[..|r|]
    ensures k >= 0 ==> |r| == if k <= |s| then k else |s|
    ensures k < 0 ==> |r| == if |s| + k >= 0 then |s| + k else 0
  {
    if k >= 0 then s[..if k <= |s| then k else |s|]
    else s[..if |s| + k >= 0 then |s| + k else 0]
  }

  /** The batch `process_emails` works on: the input cut down to `maxEmails` when it is longer. */
  function Truncate(emails: seq<Email>, maxEmails: int): (batch: seq<Email>)
    ensures |batch| <= |emails| && batch == emails[..|batch|]
    ensures maxEmails >= 0 ==> |batch| == if |emails| <= maxEmails then |emails| else maxEmails
    ensures maxEmails < 0 ==> |batch| == if |emails| + maxEmails >= 0 then |emails| + maxEmails else 0
  {
    if |emails| > maxEmails then PrefixSlice(emails, maxEmails) else emails
  }

  /**
   * The default identifier of the email at position `i` of a batch:
   * "email_" followed by the decimal number `i + 1`.
   */
  function DefaultId(i: nat): (id: string)
    ensures |id| > 6 && id[..6] == "email_"
    ensures IsDigits(id[6..]) && DecimalValue(id[6..]) == i + 1
    ensures |id| == 7 || id[6] != '0'
  {
    DecimalRoundTrip(i + 1);
    var id := "email_" + NatToDecimal(i + 1);
    assert id[6..] == NatToDecimal(i + 1);
    id
  }

  /**
   * The record `process_emails` builds for the `i`-th email of its batch.
   * It is answered automatically exactly when auto-response is on and the
   * email is urgent or important.
   */
  function ProcessOne(email: Email, i: nat, autoResponse: bool): (p: ProcessedEmail)
    ensures p.category == CategorizeEmail(email) && p.status == ProcessedStatus
    ensures p.id == email.id.GetOr(DefaultId(i))
    ensures p.subject == email.subject.GetOr("No Subject") && p.sender == email.sender.GetOr("Unknown")
    ensures p.autoResponseSent <==> autoResponse && (p.category == Urgent || p.category == Important)
    ensures p.response == if p.autoResponseSent then Some(GenerateAutoResponse(email)) else None
  {
    var category := CategorizeEmail(email);
    var p := ProcessedEmail(email.id.GetOr(DefaultId(i)), email.subject.GetOr("No Subject"),
                            email.sender.GetOr("Unknown"), category, ProcessedStatus, false, None);
    if autoResponse && (category == Urgent || category == Important)
    then p.(autoResponseSent := true, response := Some(GenerateAutoResponse(email)))
    else p
  }

  // ---------------------------------------------------------------------------
  // Statistics
  // ---------------------------------------------------------------------------

  /** `sum(1 for e in processed if e['category'] == c)`. */
  function CountCategory(processed: seq<ProcessedEmail>, c: string): (n: nat)
    ensures n <= |processed|
  {
    if processed == [] then 0
    else CountCategory(processed[..|processed| - 1], c) + (if processed[|processed| - 1].category == c then 1 else 0)
  }

  /** Counts over a log that grew by a batch are the old counts plus the batch's counts. */
  lemma {:induction false} CountCategoryAppend(a: seq<ProcessedEmail>, b: seq<ProcessedEmail>, c: string)
    ensures CountCategory(a + b, c) == CountCategory(a, c) + CountCategory(b, c)
    decreases |b|
  {
    if b != [] {
      var b' := b[..|b| - 1];
      CountCategoryAppend(a, b', c);
      assert (a + b)[..|a + b| - 1] == a + b';
      assert (a + b)[|a + b| - 1] == b[|b| - 1];
    } else {
      assert a + b == a;
    }
  }

  predicate AllCategorized(processed: seq<ProcessedEmail>) {
    forall i :: 0 <= i < |processed| ==> processed[i].category in DefaultCategories
  }

  /** When every email carries one of the four categories, their counts add up to the total. */
  lemma {:induction false} CountsCoverAll(processed: seq<ProcessedEmail>)
    requires AllCategorized(processed)
    ensures CountCategory(processed, Urgent) + CountCategory(processed, Important)
          + CountCategory(processed, Normal) + CountCategory(processed, LowPriority) == |processed|
    decreases |processed|
  {
    if processed != [] {
      CountsCoverAll(processed[..|processed| - 1]);
    }
  }

  // ---------------------------------------------------------------------------
  // Synthetic emails
  // ---------------------------------------------------------------------------

  /** The `k`-th email `open_emails` fabricates (numbering from 1). */
  function SyntheticEmail(k: nat): (e: Email)
    ensures e.id.Some? && e.subject.Some? && e.sender.Some? && e.content.Some?
    ensures |e.id.value| > 6 && e.id.value[..6] == "email_"
    ensures IsDigits(e.id.value[6..]) && DecimalValue(e.id.value[6..]) == k
    ensures |e.id.value| == 7 || e.id.value[6] != '0'
    ensures e.subject.value == "Email Subject " + e.id.value[6..]
    ensures e.sender.value == "sender" + e.id.value[6..] + "@example.com"
    ensures e.content.value == "This is the content of email " + e.id.value[6..]
  {
    var n := NatToDecimal(k);
    DecimalRoundTrip(k);
    assert ("email_" + n)[6..] == n;
    Email(Some("email_" + n), Some("Email Subject " + n), Some("sender" + n + "@example.com"),
          Some("This is the content of email " + n))
  }

  /** Fabricated emails have pairwise distinct identifiers. */
  lemma SyntheticIdsDistinct(j: nat, k: nat)
    requires j != k
    ensures SyntheticEmail(j).id != SyntheticEmail(k).id
  {
  }

  /** A keyword the subject stem cannot contain, and that has no digit. */
  predicate AbsentFromStem(kw: string) {
    |kw| > 0 && HasNoDigit(kw) && !Contains(SubjectStem, kw)
  }

  lemma StemLacksUrgentKeywords()
    ensures forall kw :: kw in UrgentKeywords ==> AbsentFromStem(kw)
  {
    MissingCharNotContained(SubjectStem, "urgent", 'r');
    MissingCharNotContained(SubjectStem, "asap", 'p');
    MissingCharNotContained(SubjectStem, "critical", 'r');
    MissingCharNotContained(SubjectStem, "emergency", 'r');
  }

  lemma StemLacksImportantKeywords()
    ensures forall kw :: kw in ImportantKeywords ==> AbsentFromStem(kw)
  {
    MissingCharNotContained(SubjectStem, "important", 'p');
    MissingCharNotContained(SubjectStem, "required", 'r');
    MissingCharNotContained(SubjectStem, "action needed", 'o');
  }

  lemma StemLacksNormalKeywords()
    ensures forall kw :: kw in NormalKeywords ==> AbsentFromStem(kw)
  {
    MissingCharNotContained(SubjectStem, "fyi", 'f');
    MissingCharNotContained(SubjectStem, "update", 'p');
    MissingCharNotContained(SubjectStem, "notification", 'n');
  }

  /** Fabricated emails mention no keyword, so they are all low priority. */
  lemma SyntheticEmailIsLowPriority(k: nat)
    ensures CategorizeEmail(SyntheticEmail(k)) == LowPriority
  {
    var n := NatToDecimal(k);
    LowerAppend("Email Subject ", n);
    LowerDigits(n);
    assert Lower("Email Subject ") == SubjectStem;
    StemLacksUrgentKeywords();
    StemLacksImportantKeywords();
    StemLacksNormalKeywords();
    forall kw | kw in AllKeywords
      ensures !Contains(SubjectStem + n, kw)
    {
      assert AbsentFromStem(kw);
      if Contains(SubjectStem + n, kw) {
        ContainsBeforeDigits(SubjectStem, n, kw);
      }
    }
    NoKeywordIsLowPriority(SyntheticEmail(k));
  }

  // ---------------------------------------------------------------------------
  // The handler
  // ---------------------------------------------------------------------------

  class EmailHandler {
    const maxEmails: int
    const batchSize: int
    const categories: seq<string>
    const autoResponse: bool

    var processedEmails: seq<ProcessedEmail>

    /** Every processed email carries one of the four categories. */
    ghost predicate Valid()
      reads this
    {
      AllCategorized(processedEmails)
    }

    /** `__init__`: each missing key takes its default; nothing processed yet. */
    constructor (config: EmailConfig)
      ensures maxEmails == config.maxEmails.GetOr(DefaultMaxEmails)
      ensures batchSize == config.batchSize.GetOr(DefaultBatchSize)
      ensures categories == config.categories.GetOr(DefaultCategories)
      ensures autoResponse == config.autoResponse.GetOr(true)
      ensures processedEmails == []
      ensures Valid()
    {
      maxEmails := config.maxEmails.GetOr(DefaultMaxEmails);
      batchSize := config.batchSize.GetOr(DefaultBatchSize);
      categories := config.categories.GetOr(DefaultCategories);
      autoResponse := config.autoResponse.GetOr(true);
      processedEmails := [];
    }

    /**
     * `process_emails`: cut the input down to `maxEmails`, process each email
     * in order, and append every record to the processed list.
     */
    method ProcessEmails(emails: seq<Email>) returns (results: seq<ProcessedEmail>)
      requires Valid()
      modifies this
      ensures Valid()
      ensures |results| == |Truncate(emails, maxEmails)|
      ensures forall i :: 0 <= i < |results| ==>
        results[i] == ProcessOne(Truncate(emails, maxEmails)[i], i, autoResponse)
      ensures processedEmails == old(processedEmails) + results
    {
      var batch := emails;
      if |emails| > maxEmails {
        batch := PrefixSlice(emails, maxEmails);
      }
      assert batch == Truncate(emails, maxEmails);
      results := [];
      for i := 0 to |batch|
        invariant |results| == i
        invariant forall j :: 0 <= j < i ==> results[j] == ProcessOne(batch[j], j, autoResponse)
        invariant processedEmails == old(processedEmails) + results
        invariant Valid()
      {
        var processed := ProcessOne(batch[i], i, autoResponse);
        results := results + [processed];
        processedEmails := processedEmails + [processed];
      }
    }

    /**
     * `get_statistics`: the number of processed emails and, for each
     * configured category, how many of them carry it. Nothing changes.
     */
    method GetStatistics() returns (stats: Statistics)
      ensures stats.totalProcessed == |processedEmails|
      ensures forall c :: c in stats.byCategory <==> c in categories
      ensures forall c :: c in stats.byCategory ==> stats.byCategory[c] == CountCategory(processedEmails, c)
    {
      var byCategory: map<string, nat> := map[];
      for i := 0 to |categories|
        invariant forall c :: c in byCategory <==> c in categories[..i]
        invariant forall c :: c in byCategory ==> byCategory[c] == CountCategory(processedEmails, c)
      {
        var count := CountCategory(processedEmails, categories[i]);
        byCategory := byCategory[categories[i] := count];
      }
      assert categories[..|categories|] == categories;
      stats := Statistics(|processedEmails|, byCategory);
    }

    /**
     * `open_emails`: fabricate `min(count, maxEmails)` emails (none when that
     * is negative), numbered from 1.
     */
    method OpenEmails(count: int := 50) returns (emails: seq<Email>)
      ensures |emails| == if count <= maxEmails then (if count >= 0 then count else 0)
                          else (if maxEmails >= 0 then maxEmails else 0)
      ensures forall i :: 0 <= i < |emails| ==> emails[i] == SyntheticEmail(i + 1)
    {
      var n := if count < maxEmails then count else maxEmails;
      emails := [];
      var i := 0;
      while i < n
        invariant 0 <= i <= (if n >= 0 then n else 0)
        invariant |emails| == i
        invariant forall j :: 0 <= j < i ==> emails[j] == SyntheticEmail(j + 1)
      {
        emails := emails + [SyntheticEmail(i + 1)];
        i := i + 1;
      }
    }
  }
}
