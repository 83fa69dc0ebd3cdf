/** The API client of `src/lib/api.ts`: the transform from a backend job record
    to the display job, the age label, the request headers, the response check
    and the query-string builders of the list endpoints. The network itself is
    an input (`Reply`), and so is the current time (milliseconds since the epoch). */
module Api {
  import opened Wrappers
  import opened Strings

  const ApiBaseUrl := "http://localhost:5000/api"
  const MsPerDay := 86400000

  // ---------------------------------------------------------------------------
  // Records

  /** `created_at` as the browser's `Date` reads it: absent or empty (falsy),
      a string that does not parse (an invalid date, `getTime()` is NaN), or an
      instant in milliseconds. */
  datatype Timestamp = Missing | Invalid | At(ms: int)

  /** `requirements` as the backend sends it: one comma-separated string, a
      list, or nothing (undefined or null). */
  datatype RawRequirements = ReqText(text: string) | ReqList(items: seq<string>) | ReqMissing

  /** A job record as the backend sends it. An optional field that is absent or
      null is `None`. */
  datatype RawJob = RawJob(
    id: int,
    title: string,
    company: string,
    location: string,
    jobType: string,
    salary: Option<string>,
    description: string,
    requirements: RawRequirements,
    logo: Option<string>,
    categoryName: Option<string>,
    category: Option<string>,
    foodAccommodationSnake: Option<string>,
    foodAccommodation: Option<string>,
    gender: Option<string>,
    createdAt: Timestamp)

  /** The display job: the backend record with the derived fields
      `category`, `foodAccommodation`, `posted`, `requirements` and `logo`. */
  datatype Job = Job(
    id: int,
    title: string,
    company: string,
    location: string,
    jobType: string,
    salary: Option<string>,
    description: string,
    requirements: seq<string>,
    logo: string,
    categoryName: Option<string>,
    category: string,
    foodAccommodationSnake: Option<string>,
    foodAccommodation: Option<string>,
    gender: Option<string>,
    posted: string,
    createdAt: Timestamp)

  // ---------------------------------------------------------------------------
  // formatDate

  function Abs(x: int): nat {
    if x < 0 then -x else x
  }

  /** `Math.ceil(Math.abs(now - date) / 86400000)`: the least whole number of
      days that covers the distance between the two instants. */
  function DiffDays(now: int, date: int): (d: nat)
    ensures Abs(now - date) <= d * MsPerDay
    ensures d > 0 ==> (d - 1) * MsPerDay < Abs(now - date)
  {
    (Abs(now - date) + MsPerDay - 1) / MsPerDay
  }

  /** The bucket `formatDate` puts a day count in, with its number. */
  datatype Age = Days(n: nat) | Weeks(n: nat) | Months(n: nat)

  function AgeOf(d: nat): (a: Age)
    ensures a.Days? <==> d < 7
    ensures a.Days? ==> a.n == d
    ensures a.Weeks? <==> 7 <= d < 30
    ensures a.Weeks? ==> (a.n - 1) * 7 < d <= a.n * 7 && 1 <= a.n <= 5
    ensures a.Months? ==> (a.n - 1) * 30 < d <= a.n * 30 && 1 <= a.n
  {
    if d < 7 then Days(d)
    else if d < 30 then Weeks((d + 6) / 7)
    else Months((d + 29) / 30)
  }

  /** The label of a bucket: its number first, " ago" last. */
  function AgeText(a: Age): (r: string)
    ensures IsPrefix(NatToString(a.n), r)
    ensures |r| > 4 && r[|r| - 4..] == " ago"
  {
    match a
    case Days(n) => if n == 1 then assert NatToString(1) == "1"; "1 day ago" else NatToString(n) + " days ago"
    case Weeks(n) => NatToString(n) + " weeks ago"
    case Months(n) => NatToString(n) + " months ago"
  }

  /** `formatDate(created_at)` for a date that parses: the four buckets, as
      the source separates them. */
  function FormatDate(now: int, date: int): (r: string)
    ensures DiffDays(now, date) == 1 ==> r == "1 day ago"
    ensures DiffDays(now, date) != 1 && DiffDays(now, date) < 7 ==>
              r == NatToString(DiffDays(now, date)) + " days ago"
    ensures 7 <= DiffDays(now, date) < 30 ==> r == NatToString((DiffDays(now, date) + 6) / 7) + " weeks ago"
    ensures 30 <= DiffDays(now, date) ==> r == NatToString((DiffDays(now, date) + 29) / 30) + " months ago"
  {
    var d := DiffDays(now, date);
    var a := AgeOf(d);
    assert d < 7 ==> a == Days(d);
    assert 7 <= d < 30 ==> a == Weeks((d + 6) / 7);
    assert 30 <= d ==> a == Months((d + 29) / 30);
    AgeText(a)
  }

  /** The label does not depend on which of the two instants is the later one. */
  lemma FormatDateSymmetric(now: int, date: int)
    ensures FormatDate(now, date) == FormatDate(date, now)
  {
    assert Abs(now - date) == Abs(date - now);
  }

  /** The same instant is "0 days ago"; exactly one week is "1 weeks ago". */
  lemma FormatDateEdges(now: int)
    ensures FormatDate(now, now) == "0 days ago"
    ensures FormatDate(now, now - 7 * MsPerDay) == "1 weeks ago"
    ensures FormatDate(now, now - 30 * MsPerDay) == "1 months ago"
  {
    SameInstant(now);
    OneWeek(now);
    OneMonth(now);
  }

  lemma SameInstant(now: int)
    ensures FormatDate(now, now) == "0 days ago"
  {
    assert DiffDays(now, now) == 0;
    assert NatToString(0) == "0";
  }

  lemma OneWeek(now: int)
    ensures FormatDate(now, now - 7 * MsPerDay) == "1 weeks ago"
  {
    assert DiffDays(now, now - 7 * MsPerDay) == 7;
    assert AgeOf(7) == Weeks(1);
    assert NatToString(1) == "1";
  }

  lemma OneMonth(now: int)
    ensures FormatDate(now, now - 30 * MsPerDay) == "1 months ago"
  {
    assert DiffDays(now, now - 30 * MsPerDay) == 30;
    assert AgeOf(30) == Months(1);
    assert NatToString(1) == "1";
  }

  // ---------------------------------------------------------------------------
  // transformJob

  /** The `posted` label: `formatDate` when `created_at` is truthy, else
      "Recently". An unparseable date makes every comparison with NaN false,
      so the last branch renders `Math.ceil(NaN / 30)`. */
  function PostedLabel(now: int, t: Timestamp): (r: string)
    ensures r == "Recently" <==> t.Missing?
    ensures t.At? ==> r == FormatDate(now, t.ms)
    ensures t.Invalid? ==> r == "NaN months ago"
  {
    match t
    case Missing => "Recently"
    case Invalid => "NaN months ago"
    case At(ms) => FormatDate(now, ms)
  }

  function TrimAll(parts: seq<string>): (r: seq<string>)
    ensures |r| == |parts|
    ensures forall i :: 0 <= i < |parts| ==> r[i] == Trim(parts[i])
  {
    seq(|parts|, i requires 0 <= i < |parts| => Trim(parts[i]))
  }

  /** Trimming the comma-separated pieces of a text leaves no comma in them. */
  lemma TrimmedPiecesCommaFree(text: string)
    ensures forall j :: 0 <= j < |TrimAll(Split(text, ','))| ==> ',' !in TrimAll(Split(text, ','))[j]
  {
    var pieces := Split(text, ',');
    forall j | 0 <= j < |pieces| ensures ',' !in Trim(pieces[j]) {
      TrimKeepsOut(pieces[j], ',');
    }
  }

  /** The display requirements: one trimmed, comma-free piece per
      comma-separated piece of a text (empty pieces kept), a list as it is,
      nothing for a missing value. */
  function RequirementList(req: RawRequirements): (r: seq<string>)
    ensures req.ReqText? ==> |r| == CountChar(req.text, ',') + 1
    ensures req.ReqText? ==> forall i :: 0 <= i < |r| ==> r[i] == Trim(Split(req.text, ',')[i])
    ensures req.ReqText? ==> forall i :: 0 <= i < |r| ==> NoOuterSpace(r[i]) && ',' !in r[i]
    ensures req.ReqList? ==> r == req.items
    ensures req.ReqMissing? ==> r == []
  {
    match req
    case ReqText(t) => TrimmedPiecesCommaFree(t); TrimAll(Split(t, ','))
    case ReqList(items) => items
    case ReqMissing => []
  }

  const PlaceholderPrefix := "https://ui-avatars.com/api/?name="
  const PlaceholderSuffix := "&background=1B4696&color=fff&size=60"

  /** The generated avatar URL: the fixed prefix, the encoded name, the fixed
      suffix. */
  function PlaceholderLogo(company: string): (r: string)
    ensures IsPrefix(PlaceholderPrefix, r)
    ensures |PlaceholderPrefix| + |PlaceholderSuffix| <= |r| && r[|r| - |PlaceholderSuffix|..] == PlaceholderSuffix
  {
    PlaceholderPrefix + EncodeUriComponent(OrElse(company, "Company")) + PlaceholderSuffix
  }

  /** `transformJob(backendJob)`. */
  function TransformJob(raw: RawJob, now: int): (r: Job)
    // the spread copies every other field unchanged
    ensures r.id == raw.id && r.title == raw.title && r.company == raw.company
    ensures r.location == raw.location && r.jobType == raw.jobType && r.salary == raw.salary
    ensures r.description == raw.description && r.gender == raw.gender
    ensures r.categoryName == raw.categoryName && r.foodAccommodationSnake == raw.foodAccommodationSnake
    ensures r.createdAt == raw.createdAt
    // category: category_name, else category, else "General"; never empty
    ensures r.category != ""
    ensures Truthy(raw.categoryName) ==> r.category == raw.categoryName.value
    ensures !Truthy(raw.categoryName) && Truthy(raw.category) ==> r.category == raw.category.value
    ensures !Truthy(raw.categoryName) && !Truthy(raw.category) ==> r.category == "General"
    // foodAccommodation prefers the snake_case field
    ensures Truthy(raw.foodAccommodationSnake) ==> r.foodAccommodation == raw.foodAccommodationSnake
    ensures !Truthy(raw.foodAccommodationSnake) ==> r.foodAccommodation == raw.foodAccommodation
    // posted
    ensures r.posted == "Recently" <==> raw.createdAt.Missing?
    ensures raw.createdAt.At? ==> r.posted == FormatDate(now, raw.createdAt.ms)
    // requirements: one trimmed piece per comma-separated piece, empty ones kept
    ensures raw.requirements.ReqText? ==>
              |r.requirements| == CountChar(raw.requirements.text, ',') + 1
              && forall i :: 0 <= i < |r.requirements| ==>
                   r.requirements[i] == Trim(Split(raw.requirements.text, ',')[i])
                   && NoOuterSpace(r.requirements[i]) && ',' !in r.requirements[i]
    ensures raw.requirements.ReqList? ==> r.requirements == raw.requirements.items
    ensures raw.requirements.ReqMissing? ==> r.requirements == []
    // logo: kept when truthy, otherwise the placeholder keyed by the encoded company
    ensures r.logo != ""
    ensures Truthy(raw.logo) ==> r.logo == raw.logo.value
    ensures !Truthy(raw.logo) ==> r.logo == PlaceholderLogo(raw.company)
  {
    Job(
      raw.id, raw.title, raw.company, raw.location, raw.jobType, raw.salary,
      raw.description,
      RequirementList(raw.requirements),
      if Truthy(raw.logo) then raw.logo.value else PlaceholderLogo(raw.company),
      raw.categoryName,
      if Truthy(raw.categoryName) then raw.categoryName.value
      else if Truthy(raw.category) then raw.category.value
      else "General",
      raw.foodAccommodationSnake,
      if Truthy(raw.foodAccommodationSnake) then raw.foodAccommodationSnake else raw.foodAccommodation,
      raw.gender,
      PostedLabel(now, raw.createdAt),
      raw.createdAt)
  }

  /** The display job seen again as a backend record, as happens when a
      transformed job is sent through the transform a second time. */
  function AsRaw(j: Job): RawJob {
    RawJob(
      j.id, j.title, j.company, j.location, j.jobType, j.salary, j.description,
      ReqList(j.requirements), Some(j.logo), j.categoryName, Some(j.category),
      j.foodAccommodationSnake, j.foodAccommodation, j.gender, j.createdAt)
  }

  /** With the clock frozen, transforming a transformed job changes nothing. */
  lemma TransformIdempotent(raw: RawJob, now: int)
    ensures TransformJob(AsRaw(TransformJob(raw, now)), now) == TransformJob(raw, now)
  {
  }

  /** The placeholder logo carries the company only in encoded form, between the
      fixed prefix and suffix, so the company cannot add query parameters. */
  lemma PlaceholderLogoShape(company: string)
    ensures var logo := PlaceholderLogo(company);
            var enc := logo[|PlaceholderPrefix|..|logo| - |PlaceholderSuffix|];
            && logo == PlaceholderPrefix + enc + PlaceholderSuffix
            && enc == EncodeUriComponent(if company == "" then "Company" else company)
            && forall i :: 0 <= i < |enc| ==> enc[i] != '&' && enc[i] != '=' && enc[i] != '#'
  {
    var enc := EncodeUriComponent(OrElse(company, "Company"));
    var logo := PlaceholderLogo(company);
    assert logo[|PlaceholderPrefix|..|logo| - |PlaceholderSuffix|] == enc;
  }

  /** The text up to the first comma is the first requirement, trimmed; a text
      without commas is a single requirement. */
  lemma RequirementsFirstPiece(a: string, b: string)
    requires ',' !in a
    ensures RequirementList(ReqText(a + [','] + b)) == [Trim(a)] + RequirementList(ReqText(b))
    ensures RequirementList(ReqText(a)) == [Trim(a)]
  {
    SplitAtSeparator(a, ',', b);
    SplitWithoutSeparator(a, ',');
    assert TrimAll([a] + Split(b, ',')) == [Trim(a)] + TrimAll(Split(b, ','));
  }

  /** A missing value gives no requirements, but the empty text gives one
      empty requirement. */
  lemma RequirementExamples()
    ensures RequirementList(ReqMissing) == []
    ensures RequirementList(ReqText("")) == [""]
  {
    assert Split("", ',') == [""];
  }

  // ---------------------------------------------------------------------------
  // Headers

  /** `getAuthToken()`: `localStorage.getItem('authToken')` in a browser
      (`storage` is `Some`), null during server rendering. */
  function AuthToken(storage: Option<map<string, string>>): (r: Option<string>)
    ensures r.Some? <==> storage.Some? && "authToken" in storage.value
    ensures r.Some? ==> r.value == storage.value["authToken"]
  {
    match storage
    case None => None
    case Some(m) => if "authToken" in m then Some(m["authToken"]) else None
  }

  /** `getHeaders()`: always the JSON content type, plus the bearer header when
      a truthy token is stored. */
  method GetHeaders(storage: Option<map<string, string>>) returns (headers: map<string, string>)
    ensures "Content-Type" in headers && headers["Content-Type"] == "application/json"
    ensures "Authorization" in headers <==> Truthy(AuthToken(storage))
    ensures "Authorization" in headers ==> headers["Authorization"] == "Bearer " + AuthToken(storage).value
    ensures headers.Keys <= {"Content-Type", "Authorization"}
  {
    headers := map["Content-Type" := "application/json"];
    var token := AuthToken(storage);
    if Truthy(token) {
      headers := headers["Authorization" := "Bearer " + token.value];
    }
  }

  /** The headers of `submitApplication`: no content type (the transport sets
      the multipart boundary), only the optional bearer header. */
  method ApplicationHeaders(storage: Option<map<string, string>>) returns (headers: map<string, string>)
    ensures "Content-Type" !in headers
    ensures "Authorization" in headers <==> Truthy(AuthToken(storage))
    ensures "Authorization" in headers ==> headers["Authorization"] == "Bearer " + AuthToken(storage).value
    ensures headers.Keys <= {"Authorization"}
  {
    var token := AuthToken(storage);
    headers := map[];
    if Truthy(token) {
      headers := headers["Authorization" := "Bearer " + token.value];
    }
  }

  // ---------------------------------------------------------------------------
  // handleResponse

  /** `handleResponse(response)`: a non-2xx reply becomes an `Error` carrying the
      body's message or "API request failed"; a 2xx body is returned as it is;
      a reply that never arrived rejects with its own error. */
  function HandleResponse<T>(reply: Reply<T>): (c: Call<T>)
    ensures c.Returned? <==> reply.Delivered? && reply.ok
    ensures c.Returned? ==> c.response == reply.body
    ensures reply.Delivered? && !reply.ok ==>
              c == Threw(ErrorObject(if reply.body.message != "" then reply.body.message else "API request failed"))
    ensures reply.Delivered? && !reply.ok ==> c.thrown.message != ""
    ensures reply.Unreachable? ==> c == Threw(reply.thrown)
  {
    match reply
    case Unreachable(t) => Threw(t)
    case Delivered(ok, body) =>
      if !ok then Threw(ErrorObject(OrElse(body.message, "API request failed"))) else Returned(body)
  }

  // ---------------------------------------------------------------------------
  // Query strings

  /** A parameter value as `Object.entries(params)` yields it. */
  datatype ParamValue = Undefined | Null | Text(s: string) | Number(n: int) | Flag(b: bool)

  /** Which of the three builders is meant: `getJobs`, `getApplications` or
      `getContactMessages`; each skips different values. */
  datatype QueryRule = JobsRule | ApplicationsRule | ContactRule

  /** What one entry contributes: nothing, one `key=value` pair, or a throw
      (`null.toString()` in `getApplications`). */
  datatype QueryStep = Skip | Emit(value: string) | Fail

  /** `value.toString()` / `String(value)` for a defined value. */
  function ValueText(v: ParamValue): string {
    match v
    case Undefined => "undefined"
    case Null => "null"
    case Text(s) => s
    case Number(n) => IntToString(n)
    case Flag(b) => if b then "true" else "false"
  }

  /** What one entry contributes under each rule: only `getApplications`
      throws, and only on null; the skipped values differ per rule; a kept
      value is sent as its text. */
  function StepOf(rule: QueryRule, v: ParamValue): (r: QueryStep)
    ensures r == Fail <==> rule == ApplicationsRule && v == Null
    ensures r == Skip <==>
              (|| v == Undefined
               || (v == Null && rule != ApplicationsRule)
               || (v == Text("") && rule != ContactRule)
               || (v == Flag(false) && rule == ContactRule))
    ensures r.Emit? ==> r.value == ValueText(v)
  {
    match rule
    case JobsRule =>
      if v == Undefined || v == Null || v == Text("") then Skip else Emit(ValueText(v))
    case ApplicationsRule =>
      if v == Undefined || v == Text("") then Skip
      else if v == Null then Fail
      else Emit(ValueText(v))
    case ContactRule =>
      if v == Undefined || v == Null || v == Flag(false) then Skip
      else Emit(ValueText(v))
  }

  /** The pairs a builder appends for `params`, in entry order; `None` when one
      entry throws. */
  function Query(rule: QueryRule, params: seq<(string, ParamValue)>): (r: Option<seq<(string, string)>>)
    ensures r.None? ==> rule == ApplicationsRule
  {
    if params == [] then Some([])
    else
      var last := params[|params| - 1];
      Extend(Query(rule, params[..|params| - 1]), last.0, StepOf(rule, last.1))
  }

  /** One more entry after the pairs built so far. */
  function Extend(pairs: Option<seq<(string, string)>>, key: string, step: QueryStep): Option<seq<(string, string)>> {
    match step
    case Fail => None
    case Skip => pairs
    case Emit(text) => if pairs.None? then None else Some(pairs.value + [(key, text)])
  }

  lemma QueryAppend(rule: QueryRule, params: seq<(string, ParamValue)>, e: (string, ParamValue))
    ensures Query(rule, params + [e]) == Extend(Query(rule, params), e.0, StepOf(rule, e.1))
  {
    assert (params + [e])[..|params|] == params;
  }

  /** The loop `Object.entries(params).forEach(...)` appending to a
      `URLSearchParams`. */
  method BuildQuery(rule: QueryRule, params: seq<(string, ParamValue)>) returns (query: Option<seq<(string, string)>>)
    ensures query == Query(rule, params)
  {
    var pairs: seq<(string, string)> := [];
    var i := 0;
    while i < |params|
      invariant 0 <= i <= |params|
      invariant Query(rule, params[..i]) == Some(pairs)
    {
      assert params[..i + 1][..i] == params[..i];
      var (key, value) := params[i];
      var step := StepOf(rule, value);
      if step.Fail? {
        assert Query(rule, params[..i + 1]) == None;
        QueryFailSticks(rule, params, i + 1);
        return None;
      } else if step.Emit? {
        pairs := pairs + [(key, step.value)];
      }
      i := i + 1;
    }
    assert params[..i] == params;
    query := Some(pairs);
  }

  /** Once an entry throws, the whole builder throws. */
  lemma {:induction false} QueryFailSticks(rule: QueryRule, params: seq<(string, ParamValue)>, k: nat)
    requires k <= |params|
    requires Query(rule, params[..k]) == None
    ensures Query(rule, params) == None
    decreases |params| - k
  {
    if k < |params| {
      assert params[..k + 1][..k] == params[..k];
      QueryFailSticks(rule, params, k + 1);
    } else {
      assert params[..k] == params;
    }
  }

  predicate Kept(rule: QueryRule, entry: (string, ParamValue)) {
    StepOf(rule, entry.1).Emit?
  }

  /** The text an emitted entry is sent as. */
  function EmittedText(rule: QueryRule, v: ParamValue): string {
    match StepOf(rule, v)
    case Emit(text) => text
    case _ => ""
  }

  function ToPairs(rule: QueryRule, params: seq<(string, ParamValue)>): seq<(string, string)> {
    seq(|params|, i requires 0 <= i < |params| => (params[i].0, EmittedText(rule, params[i].1)))
  }

  function KeptEntries(rule: QueryRule, params: seq<(string, ParamValue)>): (r: seq<(string, ParamValue)>)
    ensures forall i :: 0 <= i < |r| ==> Kept(rule, r[i])
  {
    if params == [] then []
    else KeptEntries(rule, params[..|params| - 1])
         + (if Kept(rule, params[|params| - 1]) then [params[|params| - 1]] else [])
  }

  predicate Throws(rule: QueryRule, params: seq<(string, ParamValue)>) {
    exists i :: 0 <= i < |params| && StepOf(rule, params[i].1) == Fail
  }

  lemma ThrowsAppend(rule: QueryRule, init: seq<(string, ParamValue)>, last: (string, ParamValue))
    ensures Throws(rule, init + [last]) <==> Throws(rule, init) || StepOf(rule, last.1) == Fail
  {
    var params := init + [last];
    if Throws(rule, init) {
      var i :| 0 <= i < |init| && StepOf(rule, init[i].1) == Fail;
      assert params[i] == init[i];
    }
    if Throws(rule, params) {
      var i :| 0 <= i < |params| && StepOf(rule, params[i].1) == Fail;
      if i < |init| { assert params[i] == init[i]; }
    }
    if StepOf(rule, last.1) == Fail {
      assert params[|init|] == last;
    }
  }

  lemma KeptEntriesAppend(rule: QueryRule, init: seq<(string, ParamValue)>, last: (string, ParamValue))
    ensures KeptEntries(rule, init + [last]) == KeptEntries(rule, init) + (if Kept(rule, last) then [last] else [])
  {
    assert (init + [last])[..|init|] == init;
  }

  lemma ToPairsAppend(rule: QueryRule, k: seq<(string, ParamValue)>, last: (string, ParamValue))
    ensures ToPairs(rule, k + [last]) == ToPairs(rule, k) + [(last.0, EmittedText(rule, last.1))]
  {
  }

  /** The query fails exactly when some entry throws, and only
      `getApplications` can throw (on a null). */
  lemma {:induction false} QueryThrows(rule: QueryRule, params: seq<(string, ParamValue)>)
    ensures Throws(rule, params) <==> Query(rule, params).None?
    ensures Throws(rule, params) ==> rule == ApplicationsRule
  {
    if params != [] {
      var init := params[..|params| - 1];
      var last := params[|params| - 1];
      assert params == init + [last];
      QueryThrows(rule, init);
      ThrowsAppend(rule, init, last);
      QueryAppend(rule, init, last);
    }
  }

  /** Otherwise the query holds exactly the emitted entries, in entry order. */
  lemma {:induction false} QueryPairs(rule: QueryRule, params: seq<(string, ParamValue)>)
    requires !Throws(rule, params)
    ensures Query(rule, params) == Some(ToPairs(rule, KeptEntries(rule, params)))
  {
    if params != [] {
      var init := params[..|params| - 1];
      var last := params[|params| - 1];
      assert params == init + [last];
      ThrowsAppend(rule, init, last);
      QueryPairs(rule, init);
      QueryAppend(rule, init, last);
      KeptEntriesAppend(rule, init, last);
      var k := KeptEntries(rule, init);
      if Kept(rule, last) {
        ToPairsAppend(rule, k, last);
      } else {
        assert k + [] == k;
      }
    } else {
      assert ToPairs(rule, []) == [];
    }
  }

  /** The query holds exactly the emitted entries, in entry order, unless some
      entry throws; only `getApplications` can throw, and only on a null. */
  lemma QueryMeaning(rule: QueryRule, params: seq<(string, ParamValue)>)
    ensures Throws(rule, params) <==> Query(rule, params).None?
    ensures !Throws(rule, params) ==> Query(rule, params) == Some(ToPairs(rule, KeptEntries(rule, params)))
    ensures Throws(rule, params) ==> rule == ApplicationsRule
  {
    QueryThrows(rule, params);
    if !Throws(rule, params) {
      QueryPairs(rule, params);
    }
  }

  /** The kept entries are exactly the entries the rule emits. */
  lemma {:induction false} KeptEntriesMembers(rule: QueryRule, params: seq<(string, ParamValue)>, e: (string, ParamValue))
    ensures e in KeptEntries(rule, params) <==> e in params && Kept(rule, e)
  {
    if params != [] {
      var init := params[..|params| - 1];
      KeptEntriesMembers(rule, init, e);
      assert params == init + [params[|params| - 1]];
    }
  }

  /** The three rules side by side: `getJobs` skips undefined, null and "";
      `getApplications` skips undefined and "" but throws on null;
      `getContactMessages` skips undefined, null and false, sends true as
      "true" and keeps "". */
  lemma QueryRules(s: string, n: int)
    ensures StepOf(JobsRule, Text("")) == Skip && StepOf(JobsRule, Null) == Skip
    ensures StepOf(ApplicationsRule, Text("")) == Skip && StepOf(ApplicationsRule, Null) == Fail
    ensures StepOf(ContactRule, Text("")) == Emit("") && StepOf(ContactRule, Null) == Skip
    ensures StepOf(ContactRule, Flag(false)) == Skip && StepOf(ContactRule, Flag(true)) == Emit("true")
    ensures forall rule :: StepOf(rule, Undefined) == Skip
    ensures forall rule :: StepOf(rule, Number(n)) == Emit(IntToString(n))
    ensures forall rule :: s != "" ==> StepOf(rule, Text(s)) == Emit(s)
  {
  }

  /** A request as `fetch` receives it; `query` empty means the URL has no `?`. */
  datatype Request = Request(verb: string, path: string, query: seq<(string, string)>, headers: map<string, string>)

  /** `result.data.map(transformJob)` when `result.success && result.data`. */
  function TransformAll(raws: seq<RawJob>, now: int): (r: seq<Job>)
    ensures |r| == |raws|
    ensures forall i :: 0 <= i < |raws| ==> r[i] == TransformJob(raws[i], now)
  {
    seq(|raws|, i requires 0 <= i < |raws| => TransformJob(raws[i], now))
  }

  /** `getJobs(params)`: the request it sends and what it resolves to. */
  method GetJobs(params: seq<(string, ParamValue)>, storage: Option<map<string, string>>,
                 reply: Reply<seq<RawJob>>, now: int)
    returns (request: Request, result: Call<seq<Job>>)
    ensures request.verb == "GET" && request.path == ApiBaseUrl + "/jobs"
    ensures Some(request.query) == Query(JobsRule, params)
    ensures "Content-Type" in request.headers
    ensures "Authorization" in request.headers <==> Truthy(AuthToken(storage))
    ensures request.headers["Content-Type"] == "application/json"
    ensures "Authorization" in request.headers ==> request.headers["Authorization"] == "Bearer " + AuthToken(storage).value
    ensures result.Threw? <==> !(reply.Delivered? && reply.ok)
    ensures result.Threw? ==> result.thrown == HandleResponse(reply).thrown
    ensures result.Returned? ==>
              && result.response.success == reply.body.success
              && result.response.message == reply.body.message
              && result.response.error == reply.body.error
    ensures result.Returned? && reply.body.success && reply.body.data.Some? ==>
              result.response.data == Some(TransformAll(reply.body.data.value, now))
    ensures result.Returned? && result.response.data.Some? ==> reply.body.success
  {
    var q := BuildQuery(JobsRule, params);
    QueryMeaning(JobsRule, params);
    var headers := GetHeaders(storage);
    request := Request("GET", ApiBaseUrl + "/jobs", q.value, headers);
    var handled := HandleResponse(reply);
    match handled
    case Threw(t) =>
      result := Threw(t);
    case Returned(env) =>
      if env.success && env.data.Some? {
        result := Returned(Envelope(env.success, env.message, Some(TransformAll(env.data.value, now)), env.error));
      } else {
        result := Returned(Envelope(env.success, env.message, None, env.error));
      }
  }

  /** `getJobById(id)`: the same, for one record under `/jobs/{id}`. */
  method GetJobById(id: int, storage: Option<map<string, string>>, reply: Reply<RawJob>, now: int)
    returns (request: Request, result: Call<Job>)
    ensures request.verb == "GET" && request.path == ApiBaseUrl + "/jobs/" + IntToString(id)
    ensures request.query == []
    ensures "Content-Type" in request.headers
    ensures "Authorization" in request.headers <==> Truthy(AuthToken(storage))
    ensures request.headers["Content-Type"] == "application/json"
    ensures "Authorization" in request.headers ==> request.headers["Authorization"] == "Bearer " + AuthToken(storage).value
    ensures result.Threw? <==> !(reply.Delivered? && reply.ok)
    ensures result.Threw? ==> result.thrown == HandleResponse(reply).thrown
    ensures result.Returned? ==>
              && result.response.success == reply.body.success
              && result.response.message == reply.body.message
              && result.response.error == reply.body.error
    ensures result.Returned? && reply.body.success && reply.body.data.Some? ==>
              result.response.data == Some(TransformJob(reply.body.data.value, now))
    ensures result.Returned? && result.response.data.Some? ==> reply.body.success
  {
    var headers := GetHeaders(storage);
    request := Request("GET", ApiBaseUrl + "/jobs/" + IntToString(id), [], headers);
    match HandleResponse(reply)
    case Threw(t) =>
      result := Threw(t);
    case Returned(env) =>
      if env.success && env.data.Some? {
        result := Returned(Envelope(env.success, env.message, Some(TransformJob(env.data.value, now)), env.error));
      } else {
        result := Returned(Envelope(env.success, env.message, None, env.error));
      }
  }

  /** `getApplications(params)` and `getContactMessages(params)`: the request,
      or `None` when building the query throws before anything is sent. */
  method ListRequest(rule: QueryRule, params: seq<(string, ParamValue)>, storage: Option<map<string, string>>)
    returns (request: Option<Request>)
    requires rule != JobsRule
    ensures request.None? <==> Throws(rule, params)
    ensures request.Some? ==>
              && request.value.verb == "GET"
              && request.value.path == ApiBaseUrl + (if rule == ApplicationsRule then "/applications" else "/contact")
              && Some(request.value.query) == Query(rule, params)
              && "Content-Type" in request.value.headers
              && request.value.headers["Content-Type"] == "application/json"
              && ("Authorization" in request.value.headers <==> Truthy(AuthToken(storage)))
              && ("Authorization" in request.value.headers ==>
                    request.value.headers["Authorization"] == "Bearer " + AuthToken(storage).value)
  {
    QueryMeaning(rule, params);
    var q := BuildQuery(rule, params);
    if q.None? {
      return None;
    }
    var headers := GetHeaders(storage);
    var path := ApiBaseUrl + (if rule == ApplicationsRule then "/applications" else "/contact");
    request := Some(Request("GET", path, q.value, headers));
  }

  /** The dashboard's message listing asks for `page=1&limit=50`. */
  lemma DashboardMessagesQuery()
    ensures Query(ContactRule, [("page", Number(1)), ("limit", Number(50))]) == Some([("page", "1"), ("limit", "50")])
  {
    var ps := [("page", Number(1)), ("limit", Number(50))];
    assert IntToString(1) == "1";
    assert IntToString(50) == "50";
    assert StepOf(ContactRule, Number(1)) == Emit("1");
    assert StepOf(ContactRule, Number(50)) == Emit("50");
    QueryAppend(ContactRule, [], ps[0]);
    assert [] + [ps[0]] == [ps[0]];
    assert Query(ContactRule, []) == Some([]);
    var p1: seq<(string, string)> := [("page", "1")];
    assert [] + p1 == p1;
    assert Query(ContactRule, [ps[0]]) == Some(p1);
    assert p1 + [("limit", "50")] == [("page", "1"), ("limit", "50")];
    QueryAppend(ContactRule, [ps[0]], ps[1]);
    assert [ps[0]] + [ps[1]] == ps;
  }
}
