/**
 * A model of the Route 53 client that supports DNS-01 domain validation
 * (section 8.4 of RFC 8555): it publishes and removes `_acme-challenge` TXT
 * records through the provider's change-batch call, and polls the provider's
 * DNS test-answer call until the record is visible.
 *
 * The provider SDK is outside the model: its change call is an opaque
 * function held by the client, and the answers of its test-answer call are
 * supplied to the polling method, one per lookup.
 */
module AwsRoute53 {

  datatype Option<T> = None | Some(value: T)

  /** Errors the provider SDK can raise. The polling loop rescues only the
      first kind; any other exception leaves the loop. */
  datatype Error =
    | ServiceError(code: string, message: string)
    | OtherError(kind: string, message: string)

  /** A provider call either answers or raises. */
  datatype Result<T> = Ok(value: T) | Err(error: Error)

  // ---------------------------------------------------------------------------
  // Change-batch requests
  // ---------------------------------------------------------------------------

  datatype Action = Upsert | Delete
  {
    /** The action's name on the wire. */
    function Name(): string
    {
      match this
      case Upsert => "UPSERT"
      case Delete => "DELETE"
    }
  }

  const TxtType: string := "TXT"
  const ChallengeTtl: int := 60

  datatype ResourceRecord = ResourceRecord(value: string)

  datatype ResourceRecordSet = ResourceRecordSet(
    name: string,
    recordType: string,
    ttl: int,
    resourceRecords: seq<ResourceRecord>)

  datatype Change = Change(action: Action, resourceRecordSet: ResourceRecordSet)

  datatype ChangeBatch = ChangeBatch(changes: seq<Change>)

  /** The argument of the provider's change call; the zone id is nil when the
      client was built without one. */
  datatype ChangeRequest = ChangeRequest(hostedZoneId: Option<string>, changeBatch: ChangeBatch)

  /** What the provider answers to an accepted change. */
  datatype ChangeInfo = ChangeInfo(id: string, status: string)

  /** A TXT record's content: the value wrapped in literal double quotes. */
  function Quoted(value: string): (q: string)
    ensures |q| == |value| + 2
    ensures q[0] == '"' && q[|q| - 1] == '"'
    ensures q[1..|q| - 1] == value
  {
    "\"" + value + "\""
  }

  /** Strips the first and the last character. */
  function Unquote(q: string): string
    requires |q| >= 2
  {
    q[1..|q| - 1]
  }

  lemma UnquoteQuoted(value: string)
    ensures Unquote(Quoted(value)) == value
  {
  }

  /** Quoting loses nothing: two values quote alike only when they are equal. */
  lemma QuotedInjective(v: string, w: string)
    requires Quoted(v) == Quoted(w)
    ensures v == w
  {
    UnquoteQuoted(v);
    UnquoteQuoted(w);
  }

  /** The request `create_txt_record` sends: it reads back as an UPSERT of
      exactly the given zone, name and value. */
  function CreateTxtRecordRequest(hostedZoneId: Option<string>, name: string, value: string): (r: ChangeRequest)
    ensures ParseChallengeRequest(r) == Some(ChallengeChange(hostedZoneId, name, value, Upsert))
  {
    ChangeRequest(
      hostedZoneId,
      ChangeBatch([
        Change(
          Upsert,
          ResourceRecordSet(name, TxtType, ChallengeTtl, [ResourceRecord(Quoted(value))]))]))
  }

  /** The request `delete_txt_record` sends: it reads back as a DELETE of
      exactly the given zone, name and value. */
  function DeleteTxtRecordRequest(hostedZoneId: Option<string>, name: string, value: string): (r: ChangeRequest)
    ensures ParseChallengeRequest(r) == Some(ChallengeChange(hostedZoneId, name, value, Delete))
  {
    ChangeRequest(
      hostedZoneId,
      ChangeBatch([
        Change(
          Delete,
          ResourceRecordSet(name, TxtType, ChallengeTtl, [ResourceRecord(Quoted(value))]))]))
  }

  /** The fields a challenge request is made of. */
  datatype ChallengeChange = ChallengeChange(
    hostedZoneId: Option<string>,
    name: string,
    value: string,
    action: Action)

  /** The request the client sends for a challenge change. */
  function ChallengeRequest(c: ChallengeChange): ChangeRequest
  {
    match c.action
    case Upsert => CreateTxtRecordRequest(c.hostedZoneId, c.name, c.value)
    case Delete => DeleteTxtRecordRequest(c.hostedZoneId, c.name, c.value)
  }

  /** Reads a change request back as a challenge change: exactly one change,
      of type TXT with TTL 60, holding exactly one quoted resource record. */
  function ParseChallengeRequest(r: ChangeRequest): Option<ChallengeChange>
  {
    if |r.changeBatch.changes| != 1 then None
    else
      var c := r.changeBatch.changes[0];
      var rrs := c.resourceRecordSet;
      if rrs.recordType != TxtType || rrs.ttl != ChallengeTtl || |rrs.resourceRecords| != 1 then None
      else
        var content := rrs.resourceRecords[0].value;
        if |content| < 2 || content[0] != '"' || content[|content| - 1] != '"' then None
        else Some(ChallengeChange(r.hostedZoneId, rrs.name, Unquote(content), c.action))
  }

  /** `create_txt_record` sends exactly one UPSERT change of a TXT record with
      TTL 60, for the given name in the given zone, whose one resource record
      is the quoted value. */
  lemma CreateTxtRecordRequestShape(hostedZoneId: Option<string>, name: string, value: string)
    ensures var r := CreateTxtRecordRequest(hostedZoneId, name, value);
      r.hostedZoneId == hostedZoneId &&
      |r.changeBatch.changes| == 1 &&
      r.changeBatch.changes[0].action.Name() == "UPSERT" &&
      r.changeBatch.changes[0].resourceRecordSet.name == name &&
      r.changeBatch.changes[0].resourceRecordSet.recordType == "TXT" &&
      r.changeBatch.changes[0].resourceRecordSet.ttl == 60 &&
      |r.changeBatch.changes[0].resourceRecordSet.resourceRecords| == 1 &&
      r.changeBatch.changes[0].resourceRecordSet.resourceRecords[0].value == "\"" + value + "\""
  {
  }

  /** `delete_txt_record` sends the request `create_txt_record` would send for
      the same inputs, except that its one change is a DELETE. */
  lemma DeleteMirrorsCreate(hostedZoneId: Option<string>, name: string, value: string)
    ensures var c := CreateTxtRecordRequest(hostedZoneId, name, value);
      var d := DeleteTxtRecordRequest(hostedZoneId, name, value);
      d.hostedZoneId == c.hostedZoneId &&
      |d.changeBatch.changes| == |c.changeBatch.changes| == 1 &&
      d.changeBatch.changes[0] == c.changeBatch.changes[0].(action := Delete) &&
      d.changeBatch.changes[0].action.Name() == "DELETE" &&
      d != c
  {
  }

  /** Every challenge change can be read back from the request sent for it. */
  lemma ParseChallengeRequestInverse(c: ChallengeChange)
    ensures ParseChallengeRequest(ChallengeRequest(c)) == Some(c)
  {
    UnquoteQuoted(c.value);
  }

  /** Every request that reads as a challenge change is the one the client
      sends for it: the builders reach exactly the well-formed requests. */
  lemma ChallengeRequestInverse(r: ChangeRequest)
    requires ParseChallengeRequest(r).Some?
    ensures ChallengeRequest(ParseChallengeRequest(r).value) == r
  {
    var c := r.changeBatch.changes[0];
    var rrs := c.resourceRecordSet;
    var content := rrs.resourceRecords[0].value;
    assert Quoted(Unquote(content)) == content;
    assert [rrs.resourceRecords[0]] == rrs.resourceRecords;
    assert [c] == r.changeBatch.changes;
  }

  // ---------------------------------------------------------------------------
  // Substring search (Ruby's String#include?)
  // ---------------------------------------------------------------------------

  /** Reference definition of a substring occurrence. */
  ghost predicate OccursAt(hay: string, needle: string, k: int)
  {
    0 <= k && k + |needle| <= |hay| && hay[k..k + |needle|] == needle
  }

  lemma PrefixOccurs(hay: string, needle: string)
    ensures needle <= hay <==> OccursAt(hay, needle, 0)
  {
  }

  lemma OccursShift(hay: string, needle: string, k: int)
    requires |hay| > 0 && k > 0
    ensures OccursAt(hay, needle, k) <==> OccursAt(hay[1..], needle, k - 1)
  {
    if k + |needle| <= |hay| {
      assert hay[1..][k - 1..k - 1 + |needle|] == hay[k..k + |needle|];
    }
  }

  /** An occurrence past the first character of `hay` is an occurrence in
      its tail, one offset earlier, and the other way round. */
  lemma OccursInTail(hay: string, needle: string)
    requires |hay| > 0
    ensures forall k :: 0 < k && OccursAt(hay, needle, k) ==> OccursAt(hay[1..], needle, k - 1)
    ensures forall k :: 0 <= k && OccursAt(hay[1..], needle, k) ==> OccursAt(hay, needle, k + 1)
  {
    forall k | 0 < k
      ensures OccursAt(hay, needle, k) ==> OccursAt(hay[1..], needle, k - 1)
    {
      OccursShift(hay, needle, k);
    }
    forall k | 0 <= k
      ensures OccursAt(hay[1..], needle, k) ==> OccursAt(hay, needle, k + 1)
    {
      OccursShift(hay, needle, k + 1);
    }
  }

  /** Ruby's `String#include?`: whether `needle` occurs in `hay`, tried at
      each offset in turn. */
  function Includes(hay: string, needle: string): (b: bool)
    ensures b <==> exists k :: OccursAt(hay, needle, k)
    decreases |hay|
  {
    PrefixOccurs(hay, needle);
    if needle <= hay then true
    else if |hay| == 0 then false
    else
      OccursInTail(hay, needle);
      Includes(hay[1..], needle)
  }

  /** `record_data.any? { |data| data.include?(value) }`: some record holds
      the value at some offset. */
  function AnyIncludes(recordData: seq<string>, value: string): (b: bool)
    ensures b <==> exists i, k :: 0 <= i < |recordData| && OccursAt(recordData[i], value, k)
  {
    exists i | 0 <= i < |recordData| :: Includes(recordData[i], value)
  }

  /** A published record, read back with its quotes, matches its own value;
      this is why the check is containment and not equality. */
  lemma QuotedRecordMatches(value: string, recordData: seq<string>)
    requires Quoted(value) in recordData
    ensures AnyIncludes(recordData, value)
  {
    var i :| 0 <= i < |recordData| && recordData[i] == Quoted(value);
    assert OccursAt(recordData[i], value, 1);
  }

  /** The empty value is contained in every record: it matches exactly the
      answers that hold at least one record. */
  lemma EmptyValueMatchesAnyRecord(recordData: seq<string>)
    ensures AnyIncludes(recordData, "") <==> |recordData| > 0
  {
    if |recordData| > 0 {
      assert Includes(recordData[0], "");
    }
  }

  // ---------------------------------------------------------------------------
  // Propagation polling
  // ---------------------------------------------------------------------------

  /** The argument of the provider's test-answer call. */
  datatype DnsQuery = DnsQuery(hostedZoneId: Option<string>, recordName: string, recordType: string)

  /** The part of a test-answer response the client reads. */
  datatype DnsAnswer = DnsAnswer(recordData: seq<string>)

  /** What a polling run does, in order: lookups and the sleeps between them. */
  datatype Event = Lookup(query: DnsQuery) | Sleep(seconds: real)

  /** How one lookup ends: the value was found, it was not (including a
      rescued service error), or an exception left the loop. */
  datatype Check = Found | NotFound | Raised(error: Error)

  function CheckAnswer(answer: Result<DnsAnswer>, value: string): (c: Check)
    ensures c == Found <==>
      answer.Ok? && exists i, k :: 0 <= i < |answer.value.recordData| && OccursAt(answer.value.recordData[i], value, k)
    ensures c.Raised? <==> answer.Err? && !answer.error.ServiceError?
    ensures c.Raised? ==> c.error == answer.error
  {
    match answer
    case Ok(a) => if AnyIncludes(a.recordData, value) then Found else NotFound
    case Err(ServiceError(_, _)) => NotFound
    case Err(e) => Raised(e)
  }

  /** The first attempt at or after `from` and before `maxAttempts` whose
      lookup does not end in NotFound; `max(from, maxAttempts)` if none. */
  function FirstStop(answers: nat -> Result<DnsAnswer>, value: string, from: nat, maxAttempts: int): (s: nat)
    ensures from <= s
    ensures s <= maxAttempts || s == from
    ensures forall j :: from <= j < s ==> CheckAnswer(answers(j), value) == NotFound
    ensures s < maxAttempts ==> CheckAnswer(answers(s), value) != NotFound
    decreases maxAttempts - from
  {
    if from >= maxAttempts || CheckAnswer(answers(from), value) != NotFound then from
    else FirstStop(answers, value, from + 1, maxAttempts)
  }

  /** `n` missed attempts: each one a lookup followed by a sleep. */
  function Misses(q: DnsQuery, delay: real, n: nat): (t: seq<Event>)
    ensures |t| == 2 * n
    ensures forall i :: 0 <= i < |t| ==> t[i] == if i % 2 == 0 then Lookup(q) else Sleep(delay)
  {
    if n == 0 then [] else Misses(q, delay, n - 1) + [Lookup(q), Sleep(delay)]
  }

  /** The value `wait_for_record_propagation` returns or raises. */
  function PropagationOutcome(answers: nat -> Result<DnsAnswer>, value: string, maxAttempts: int): Result<bool>
  {
    var s := FirstStop(answers, value, 0, maxAttempts);
    if s < maxAttempts then
      match CheckAnswer(answers(s), value)
      case Raised(e) => Err(e)
      case _ => Ok(true)
    else Ok(false)
  }

  /** The lookups and sleeps `wait_for_record_propagation` performs. */
  function PropagationTrace(answers: nat -> Result<DnsAnswer>, value: string, q: DnsQuery, delay: real, maxAttempts: int): seq<Event>
  {
    var s := FirstStop(answers, value, 0, maxAttempts);
    Misses(q, delay, s) + if s < maxAttempts then [Lookup(q)] else []
  }

  function Lookups(t: seq<Event>): nat
  {
    if t == [] then 0 else Lookups(t[..|t| - 1]) + if t[|t| - 1].Lookup? then 1 else 0
  }

  function Sleeps(t: seq<Event>): nat
  {
    if t == [] then 0 else Sleeps(t[..|t| - 1]) + if t[|t| - 1].Sleep? then 1 else 0
  }

  lemma {:induction false} MissesCounts(q: DnsQuery, delay: real, n: nat)
    ensures Lookups(Misses(q, delay, n)) == n
    ensures Sleeps(Misses(q, delay, n)) == n
  {
    if n > 0 {
      MissesCounts(q, delay, n - 1);
      var prev := Misses(q, delay, n - 1);
      var t := Misses(q, delay, n);
      assert t[..|t| - 1] == prev + [Lookup(q)];
      assert (prev + [Lookup(q)])[..|prev|] == prev;
    }
  }

  lemma MissesThenLookupCounts(q: DnsQuery, delay: real, n: nat)
    ensures Lookups(Misses(q, delay, n) + [Lookup(q)]) == n + 1
    ensures Sleeps(Misses(q, delay, n) + [Lookup(q)]) == n
  {
    MissesCounts(q, delay, n);
    var t := Misses(q, delay, n) + [Lookup(q)];
    assert t[..|t| - 1] == Misses(q, delay, n);
  }

  /** The run confirms the record exactly when some attempt within the budget
      finds the value and every earlier attempt missed (a rescued service
      error counts as a miss). */
  lemma PropagationConfirmedIff(answers: nat -> Result<DnsAnswer>, value: string, maxAttempts: int)
    ensures PropagationOutcome(answers, value, maxAttempts) == Ok(true) <==>
      exists i :: 0 <= i < maxAttempts && CheckAnswer(answers(i), value) == Found &&
        forall j :: 0 <= j < i ==> CheckAnswer(answers(j), value) == NotFound
  {
    var s := FirstStop(answers, value, 0, maxAttempts);
    if PropagationOutcome(answers, value, maxAttempts) == Ok(true) {
      assert CheckAnswer(answers(s), value) == Found;
    } else {
      forall i | 0 <= i < maxAttempts && CheckAnswer(answers(i), value) == Found
        ensures exists j :: 0 <= j < i && CheckAnswer(answers(j), value) != NotFound
      {
        assert s < i;
      }
    }
  }

  /** Without a match and without an escaping exception, the run returns
      false after exactly `maxAttempts` lookups, each followed by a sleep;
      with a budget of zero or less it looks up nothing. */
  lemma PropagationExhausted(answers: nat -> Result<DnsAnswer>, value: string, q: DnsQuery, delay: real, maxAttempts: int)
    requires forall j :: 0 <= j < maxAttempts ==> CheckAnswer(answers(j), value) == NotFound
    ensures var t := PropagationTrace(answers, value, q, delay, maxAttempts);
      var budget := if maxAttempts <= 0 then 0 else maxAttempts;
      PropagationOutcome(answers, value, maxAttempts) == Ok(false) &&
      Lookups(t) == budget && Sleeps(t) == budget &&
      (maxAttempts <= 0 ==> t == [])
  {
    var s := FirstStop(answers, value, 0, maxAttempts);
    assert s == if maxAttempts <= 0 then 0 else maxAttempts;
    MissesCounts(q, delay, s);
    assert PropagationTrace(answers, value, q, delay, maxAttempts) == Misses(q, delay, s);
  }

  /** A run that stops early (on a match or an escaping exception) has made
      one lookup per attempt up to and including the stopping one, and slept
      once after each earlier attempt but not after the last. */
  lemma PropagationStopsAtFirstHit(answers: nat -> Result<DnsAnswer>, value: string, q: DnsQuery, delay: real, maxAttempts: int)
    requires PropagationOutcome(answers, value, maxAttempts) != Ok(false)
    ensures var t := PropagationTrace(answers, value, q, delay, maxAttempts);
      var s := FirstStop(answers, value, 0, maxAttempts);
      s < maxAttempts &&
      Lookups(t) == s + 1 && Sleeps(t) == s && t[|t| - 1] == Lookup(q) &&
      (PropagationOutcome(answers, value, maxAttempts) == Ok(true) <==> CheckAnswer(answers(s), value) == Found)
  {
    var s := FirstStop(answers, value, 0, maxAttempts);
    MissesThenLookupCounts(q, delay, s);
  }

  /** Every sleep lasts `delay`, and every lookup asks the same question. */
  lemma PropagationTraceEvents(answers: nat -> Result<DnsAnswer>, value: string, q: DnsQuery, delay: real, maxAttempts: int)
    ensures var t := PropagationTrace(answers, value, q, delay, maxAttempts);
      forall i :: 0 <= i < |t| ==> t[i] == Lookup(q) || t[i] == Sleep(delay)
  {
  }

  /** Transient service errors do not abort the wait: after `k` of them, a
      matching answer within the budget confirms the record on lookup k + 1. */
  lemma ServiceErrorsAreRetried(answers: nat -> Result<DnsAnswer>, value: string, q: DnsQuery, delay: real, maxAttempts: int, k: nat)
    requires k < maxAttempts
    requires forall j :: 0 <= j < k ==> answers(j).Err? && answers(j).error.ServiceError?
    requires answers(k).Ok? && AnyIncludes(answers(k).value.recordData, value)
    ensures PropagationOutcome(answers, value, maxAttempts) == Ok(true)
    ensures var t := PropagationTrace(answers, value, q, delay, maxAttempts);
      Lookups(t) == k + 1 && Sleeps(t) == k
  {
    var s := FirstStop(answers, value, 0, maxAttempts);
    assert CheckAnswer(answers(k), value) == Found;
    assert s == k;
    MissesThenLookupCounts(q, delay, k);
  }

  /** An exception other than a service error ends the wait at once: it is
      raised to the caller after that lookup, with no sleep after it. */
  lemma OtherErrorEscapes(answers: nat -> Result<DnsAnswer>, value: string, q: DnsQuery, delay: real, maxAttempts: int, k: nat, e: Error)
    requires k < maxAttempts
    requires forall j :: 0 <= j < k ==> CheckAnswer(answers(j), value) == NotFound
    requires answers(k) == Err(e) && e.OtherError?
    ensures PropagationOutcome(answers, value, maxAttempts) == Err(e)
    ensures var t := PropagationTrace(answers, value, q, delay, maxAttempts);
      Lookups(t) == k + 1 && Sleeps(t) == k && t[|t| - 1] == Lookup(q)
  {
    var s := FirstStop(answers, value, 0, maxAttempts);
    assert s == k;
    MissesThenLookupCounts(q, delay, k);
  }

  // ---------------------------------------------------------------------------
  // The client
  // ---------------------------------------------------------------------------

  /** The provider SDK handle: its change call, as an opaque function. */
  datatype Route53Sdk = Route53Sdk(changeResourceRecordSets: ChangeRequest -> Result<ChangeInfo>)

  class Client {
    const hostedZoneId: Option<string>
    const client: Route53Sdk

    constructor (client: Route53Sdk, nameonly hostedZoneId: Option<string> := None)
      ensures this.hostedZoneId == hostedZoneId
      ensures this.client == client
    {
      this.hostedZoneId := hostedZoneId;
      this.client := client;
    }

    /** Sends the UPSERT request and returns whatever the provider answers:
        its error is raised to the caller unchanged. */
    function CreateTxtRecord(name: string, value: string): (r: Result<ChangeInfo>)
      ensures forall e :: r == Err(e) <==>
        client.changeResourceRecordSets(CreateTxtRecordRequest(hostedZoneId, name, value)) == Err(e)
      ensures forall info :: r == Ok(info) <==>
        client.changeResourceRecordSets(CreateTxtRecordRequest(hostedZoneId, name, value)) == Ok(info)
    {
      client.changeResourceRecordSets(CreateTxtRecordRequest(hostedZoneId, name, value))
    }

    /** Sends the DELETE request and returns whatever the provider answers:
        its error is raised to the caller unchanged. */
    function DeleteTxtRecord(name: string, value: string): (r: Result<ChangeInfo>)
      ensures forall e :: r == Err(e) <==>
        client.changeResourceRecordSets(DeleteTxtRecordRequest(hostedZoneId, name, value)) == Err(e)
      ensures forall info :: r == Ok(info) <==>
        client.changeResourceRecordSets(DeleteTxtRecordRequest(hostedZoneId, name, value)) == Ok(info)
    {
      client.changeResourceRecordSets(DeleteTxtRecordRequest(hostedZoneId, name, value))
    }

    /** The question every lookup of a wait for `name` asks. */
    function TxtQuery(name: string): DnsQuery
    {
      DnsQuery(hostedZoneId, name, TxtType)
    }

    /** Looks the record up until an answer contains `value`, at most
        `maxAttempts` times, sleeping `delay` seconds after each miss.
        `answers(i)` is the provider's answer to the i-th lookup. */
    method WaitForRecordPropagation(
      name: string,
      value: string,
      answers: nat -> Result<DnsAnswer>,
      nameonly maxAttempts: int := 60,
      nameonly delay: real := 5.0)
      returns (outcome: Result<bool>, trace: seq<Event>)
      ensures outcome == PropagationOutcome(answers, value, maxAttempts)
      ensures trace == PropagationTrace(answers, value, TxtQuery(name), delay, maxAttempts)
    {
      var q := TxtQuery(name);
      var attempt: nat := 0;
      trace := [];
      while attempt < maxAttempts
        invariant attempt <= maxAttempts || attempt == 0
        invariant forall j :: 0 <= j < attempt ==> CheckAnswer(answers(j), value) == NotFound
        invariant trace == Misses(q, delay, attempt)
        decreases maxAttempts - attempt
      {
        trace := trace + [Lookup(q)];
        var response := answers(attempt);
        match response {
          case Ok(a) =>
            var found := AnyIncludes(a.recordData, value);
            if found {
              assert FirstStop(answers, value, 0, maxAttempts) == attempt;
              return Ok(true), trace;
            }
          case Err(ServiceError(_, _)) =>
          case Err(e) =>
            assert FirstStop(answers, value, 0, maxAttempts) == attempt;
            return Err(e), trace;
        }
        trace := trace + [Sleep(delay)];
        attempt := attempt + 1;
      }
      assert FirstStop(answers, value, 0, maxAttempts) == attempt;
      outcome := Ok(false);
    }
  }

  /** A change call fails exactly when the provider raises, and with the
      provider's own error: failures are never swallowed or rewritten. */
  lemma ChangeCallsPassThrough(c: Client, name: string, value: string)
    ensures forall e :: c.CreateTxtRecord(name, value) == Err(e) <==>
      c.client.changeResourceRecordSets(CreateTxtRecordRequest(c.hostedZoneId, name, value)) == Err(e)
    ensures forall e :: c.DeleteTxtRecord(name, value) == Err(e) <==>
      c.client.changeResourceRecordSets(DeleteTxtRecordRequest(c.hostedZoneId, name, value)) == Err(e)
    ensures ParseChallengeRequest(CreateTxtRecordRequest(c.hostedZoneId, name, value)) == Some(ChallengeChange(c.hostedZoneId, name, value, Upsert))
    ensures ParseChallengeRequest(DeleteTxtRecordRequest(c.hostedZoneId, name, value)) == Some(ChallengeChange(c.hostedZoneId, name, value, Delete))
  {
    ParseChallengeRequestInverse(ChallengeChange(c.hostedZoneId, name, value, Upsert));
    ParseChallengeRequestInverse(ChallengeChange(c.hostedZoneId, name, value, Delete));
  }

  /** A provider that always answers with the quoted challenge token confirms
      it on the first lookup, with no sleep. */
  method WaitConfirmsOnFirstLookup(sdk: Route53Sdk)
  {
    var c := new Client(sdk, hostedZoneId := Some("Z123456789ABCD"));
    var token := "validation-token";
    var answers := (i: nat) => Ok(DnsAnswer([Quoted(token)]));
    QuotedRecordMatches(token, [Quoted(token)]);
    var outcome, trace := c.WaitForRecordPropagation("_acme-challenge.example.com", token, answers, maxAttempts := 3, delay := 0.01);
    assert CheckAnswer(answers(0), token) == Found;
    assert outcome == Ok(true);
    assert trace == [Lookup(DnsQuery(Some("Z123456789ABCD"), "_acme-challenge.example.com", "TXT"))];
  }

  /** A provider that never holds a record gives up after three lookups and
      three sleeps. */
  method WaitGivesUpAfterBudget(sdk: Route53Sdk)
  {
    var c := new Client(sdk, hostedZoneId := Some("Z123456789ABCD"));
    var answers := (i: nat) => Ok(DnsAnswer([]));
    var outcome, trace := c.WaitForRecordPropagation("_acme-challenge.example.com", "validation-token", answers, maxAttempts := 3, delay := 0.01);
    PropagationExhausted(answers, "validation-token", c.TxtQuery("_acme-challenge.example.com"), 0.01, 3);
    assert outcome == Ok(false);
    assert Lookups(trace) == 3 && Sleeps(trace) == 3;
  }
}
