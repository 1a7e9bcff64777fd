/** The capped transport of the live runner and its request budget across resumed reports.

    `handle_async_request` checks and counts before its first suspension point, so one call of `Handle`
    is one atomic step: requests in flight together are some sequence of such steps, and how each of
    them ends (answer, error, cancellation, timeout) changes no count. */
module Transport {
  import opened Directory

  datatype Provider = Gemini | Tavily

  datatype Kind = Generation | Discovery | Search

  datatype Body =
    | Unreadable
    | GenerationBody(maxOutputTokens: int)
    | SearchBody(depth: string, maxResults: int, images: bool, rawContent: bool, query: string)

  datatype Request = Request(host: string, verb: string, path: string, size: nat, body: Body)

  const MODEL := "gemini-3.5-flash-lite"
  const QUERY := "Python official documentation asyncio library"

  predicate EndsWith(s: string, suffix: string)
  {
    |suffix| <= |s| && s[|s| - |suffix|..] == suffix
  }

  /** The kind a request is counted under, or `None` when it raises before being counted. */
  function Classify(p: Provider, r: Request): Option<Kind>
  {
    if p == Gemini && r.host == "generativelanguage.googleapis.com" then
      if r.verb == "POST" && EndsWith(r.path, "/models/" + MODEL + ":generateContent") then
        if r.body.GenerationBody? && 0 < r.body.maxOutputTokens <= 2048 && r.size < 20000
        then Some(Generation) else None
      else if r.verb == "GET" && EndsWith(r.path, "/models/" + MODEL) then Some(Discovery)
      else None
    else if p == Tavily && r.host == "api.tavily.com" && r.path == "/search" then
      if r.body.SearchBody? && r.body.depth == "basic" && r.body.maxResults == 3
         && !r.body.images && !r.body.rawContent && r.body.query == QUERY
      then Some(Search) else None
    else None
  }

  function Limit(k: Kind): int
  {
    match k
    case Generation => 6
    case Discovery => 2
    case Search => 1
  }

  function ProviderOf(k: Kind): Provider
  {
    if k == Search then Tavily else Gemini
  }

  // ---- Values ------------------------------------------------------------------

  type Counts = c: map<Kind, int> | Generation in c && Discovery in c && Search in c
    witness map[Generation := 0, Discovery := 0, Search := 0]

  const ZERO: Counts := map[Generation := 0, Discovery := 0, Search := 0]

  /** The kind under which a request is handed to the inner transport, if it is. */
  function Handed(p: Provider, c: Counts, r: Request): Option<Kind>
  {
    var k := Classify(p, r);
    if k.Some? && c[k.value] < Limit(k.value) then k else None
  }

  function Counted(p: Provider, c: Counts, r: Request): Counts
  {
    var k := Handed(p, c, r);
    if k.Some? then c[k.value := c[k.value] + 1] else c
  }

  /** The counts after a run of requests, and the kinds handed to the inner transport, in order. */
  function CountsAfter(p: Provider, c: Counts, requests: seq<Request>): Counts
  {
    if requests == [] then c else CountsAfter(p, Counted(p, c, requests[0]), requests[1..])
  }

  function Sent(p: Provider, c: Counts, requests: seq<Request>): seq<Kind>
  {
    if requests == [] then []
    else
      var k := Handed(p, c, requests[0]);
      (if k.Some? then [k.value] else []) + Sent(p, Counted(p, c, requests[0]), requests[1..])
  }

  // ---- The objects -----------------------------------------------------------------

  /** A Python dictionary of counts: one object, possibly reachable from several places. */
  class CountDict {
    var at: Counts

    constructor ()
      ensures at == ZERO
    {
      at := ZERO;
    }
  }

  /** `report[name]`; `counts` is null while the key is missing. */
  class Section {
    var counts: CountDict?
    var passed: bool

    /** A section as `json.loads` rebuilds it: equal contents, objects of its own. */
    constructor Loaded(recorded: Option<Counts>, passed: bool)
      ensures (counts == null) == recorded.None? && this.passed == passed
      ensures recorded.Some? ==> fresh(counts) && counts.at == recorded.value
    {
      counts := null;
      this.passed := passed;
      new;
      if recorded.Some? {
        counts := new CountDict();
        counts.at := recorded.value;
      }
    }

    ghost function Recorded(): Counts
      reads this, counts
    {
      if counts == null then ZERO else counts.at
    }
  }

  class BoundedTransport {
    const provider: Provider
    const counts: CountDict

    constructor (provider: Provider)
      ensures this.provider == provider && fresh(counts) && counts.at == ZERO
    {
      this.provider := provider;
      this.counts := new CountDict();
    }

    /** `handle_async_request` up to the call of the inner transport, which happens iff `sent.Some?`. */
    method Handle(r: Request) returns (sent: Option<Kind>)
      modifies counts
      ensures sent == Handed(provider, old(counts.at), r)
      ensures counts.at == Counted(provider, old(counts.at), r)
    {
      var kind := Classify(provider, r);
      if kind.None? {
        return None;
      }
      if counts.at[kind.value] >= Limit(kind.value) {
        return None;
      }
      counts.at := counts.at[kind.value := counts.at[kind.value] + 1];
      return kind;
    }
  }

  /** The opening lines of `gemini` and `tavily`: a new transport takes over the recorded counts, and
      from then on the report and the transport share one dictionary. */
  method Resume(p: Provider, section: Section) returns (t: BoundedTransport)
    modifies section
    ensures t.provider == p && section.counts == t.counts && fresh(t) && fresh(t.counts)
    ensures t.counts.at == old(section.Recorded()) && section.passed == old(section.passed)
  {
    t := new BoundedTransport(p);
    if section.counts != null {
      t.counts.at := t.counts.at + section.counts.at;
    }
    assert t.counts.at == old(section.Recorded());
    section.counts := t.counts;
  }

  /** One provider's part of `run`: whatever requests the client makes, in whatever order they reach
      the transport, the report has counted exactly those handed on, at every moment. */
  method DriveProvider(p: Provider, section: Section, requests: seq<Request>) returns (sent: seq<Kind>)
    modifies section
    ensures old(section.passed) ==> sent == [] && section.Recorded() == old(section.Recorded())
    ensures !old(section.passed) ==>
              && sent == Sent(p, old(section.Recorded()), requests)
              && section.Recorded() == CountsAfter(p, old(section.Recorded()), requests)
    ensures section.counts == old(section.counts) || fresh(section.counts)
  {
    sent := [];
    if section.passed {
      return;
    }
    var t := Resume(p, section);
    ghost var start := t.counts.at;
    var i := 0;
    while i < |requests|
      invariant 0 <= i <= |requests|
      invariant section.counts == t.counts && fresh(t.counts)
      invariant CountsAfter(p, t.counts.at, requests[i..]) == CountsAfter(p, start, requests)
      invariant sent + Sent(p, t.counts.at, requests[i..]) == Sent(p, start, requests)
      modifies t.counts
    {
      ghost var rest := requests[i..];
      assert rest[0] == requests[i] && rest[1..] == requests[i + 1..];
      var k := t.Handle(requests[i]);
      if k.Some? {
        sent := sent + [k.value];
      }
      i := i + 1;
    }
  }

  // ---- Chains of runs -------------------------------------------------------------------

  /** What a process does with one provider; `passed` is the status it finds in the resumed report. */
  datatype Leg = Leg(provider: Provider, passed: bool, requests: seq<Request>)

  datatype Recorded = Recorded(gemini: Counts, tavily: Counts)
  {
    function Of(p: Provider): Counts { if p == Gemini then gemini else tavily }

    function With(p: Provider, c: Counts): Recorded
    {
      if p == Gemini then this.(gemini := c) else this.(tavily := c)
    }
  }

  /** The report after a chain of runs, each resumed from the report of the one before. */
  function ReportAfter(legs: seq<Leg>): Recorded
  {
    if legs == [] then Recorded(ZERO, ZERO)
    else
      var before, last := ReportAfter(legs[..|legs| - 1]), legs[|legs| - 1];
      if last.passed then before
      else before.With(last.provider, CountsAfter(last.provider, before.Of(last.provider), last.requests))
  }

  /** Every request the chain has handed to an inner transport. */
  function SentByChain(legs: seq<Leg>): seq<Kind>
  {
    if legs == [] then []
    else
      var before, last := ReportAfter(legs[..|legs| - 1]), legs[|legs| - 1];
      SentByChain(legs[..|legs| - 1]) +
      if last.passed then [] else Sent(last.provider, before.Of(last.provider), last.requests)
  }

  /** The chain itself, process by process, each over a report loaded from the previous one. */
  method DriveChain(legs: seq<Leg>) returns (report: Recorded, sent: seq<Kind>)
    ensures report == ReportAfter(legs) && sent == SentByChain(legs)
  {
    report, sent := Recorded(ZERO, ZERO), [];
    var i := 0;
    while i < |legs|
      invariant 0 <= i <= |legs|
      invariant report == ReportAfter(legs[..i]) && sent == SentByChain(legs[..i])
    {
      var leg := legs[i];
      var section := new Section.Loaded(Some(report.Of(leg.provider)), leg.passed);
      var more := DriveProvider(leg.provider, section, leg.requests);
      assert legs[..i + 1][..i] == legs[..i];
      if section.counts != null {
        report := report.With(leg.provider, section.counts.at);
      }
      sent := sent + more;
      i := i + 1;
    }
    assert legs[..i] == legs;
  }

  // ---- What is handed on -----------------------------------------------------------------

  /** A request is handed on as a generation exactly under these conditions. */
  predicate ApprovedGeneration(p: Provider, c: Counts, r: Request)
  {
    && p == Gemini && r.host == "generativelanguage.googleapis.com" && r.verb == "POST"
    && EndsWith(r.path, "/models/" + "gemini-3.5-flash-lite" + ":generateContent")
    && r.body.GenerationBody? && 1 <= r.body.maxOutputTokens && r.body.maxOutputTokens < 2049 && r.size <= 19999
    && c[Generation] <= 5
  }

  predicate ApprovedDiscovery(p: Provider, c: Counts, r: Request)
  {
    && p == Gemini && r.host == "generativelanguage.googleapis.com" && r.verb == "GET"
    && EndsWith(r.path, "/models/" + "gemini-3.5-flash-lite")
    && c[Discovery] <= 1
  }

  predicate ApprovedSearch(p: Provider, c: Counts, r: Request)
  {
    && p == Tavily && r.host == "api.tavily.com" && r.path == "/search"
    && r.body == SearchBody("basic", 3, false, false, "Python official documentation asyncio library")
    && c[Search] <= 0
  }

  lemma GeminiHanded(p: Provider, c: Counts, r: Request)
    ensures Handed(p, c, r) == Some(Generation) <==> ApprovedGeneration(p, c, r)
    ensures Handed(p, c, r) == Some(Discovery) <==> ApprovedDiscovery(p, c, r)
  {
  }

  lemma TavilyHanded(p: Provider, c: Counts, r: Request)
    ensures Handed(p, c, r) == Some(Search) <==> ApprovedSearch(p, c, r)
  {
  }

  /** Which requests are handed on, over provider, host, verb, path, body and counts, and what that adds to
      the counts. */
  lemma HandedIff(p: Provider, c: Counts, r: Request)
    ensures Handed(p, c, r) == Some(Generation) <==> ApprovedGeneration(p, c, r)
    ensures Handed(p, c, r) == Some(Discovery) <==> ApprovedDiscovery(p, c, r)
    ensures Handed(p, c, r) == Some(Search) <==> ApprovedSearch(p, c, r)
    ensures Handed(p, c, r).Some? ==> var k := Handed(p, c, r).value; Counted(p, c, r) == c[k := c[k] + 1]
    ensures Handed(p, c, r).None? ==> Counted(p, c, r) == c
  {
    GeminiHanded(p, c, r);
    TavilyHanded(p, c, r);
  }

  /** A path ends with a suffix when something, perhaps nothing, stands before it. */
  lemma EndsWithIff(s: string, suffix: string)
    ensures EndsWith(s, suffix) <==> exists front :: s == front + suffix
  {
    if EndsWith(s, suffix) {
      assert s == s[..|s| - |suffix|] + suffix;
    }
  }

  function Times(k: Kind, sent: seq<Kind>): nat
  {
    multiset(sent)[k]
  }

  lemma {:induction false} RunBudget(p: Provider, c: Counts, requests: seq<Request>, k: Kind)
    ensures CountsAfter(p, c, requests)[k] == c[k] + Times(k, Sent(p, c, requests))
    ensures c[k] <= Limit(k) ==> CountsAfter(p, c, requests)[k] <= Limit(k)
    ensures p != ProviderOf(k) ==> Times(k, Sent(p, c, requests)) == 0
  {
    if requests != [] {
      RunBudget(p, Counted(p, c, requests[0]), requests[1..], k);
    }
  }

  /** The budget over every chain of resumed runs: for each kind, the requests handed to the inner
      transport are exactly those its provider's report has recorded, and never more than 6 generations, 2
      discoveries and 1 search. */
  lemma {:induction false} ChainBudget(legs: seq<Leg>, k: Kind)
    ensures Times(k, SentByChain(legs)) == ReportAfter(legs).Of(ProviderOf(k))[k]
    ensures Times(k, SentByChain(legs)) <= Limit(k)
    ensures k == Generation ==> Times(k, SentByChain(legs)) <= 6
    ensures k == Discovery ==> Times(k, SentByChain(legs)) <= 2
    ensures k == Search ==> Times(k, SentByChain(legs)) <= 1
    ensures ProviderOf(k) == if k == Search then Tavily else Gemini
  {
    if legs != [] {
      var before, last := legs[..|legs| - 1], legs[|legs| - 1];
      ChainBudget(before, k);
      if !last.passed {
        RunBudget(last.provider, ReportAfter(before).Of(last.provider), last.requests, k);
      }
    }
  }
}
