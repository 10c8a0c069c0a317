/** The bounded traffic log behind `GET /traffic`. */
module TrafficLog {
  import opened Wrappers
  import opened Json
  import opened Messages

  datatype Disposition = Queued | Rejected | Routed | UnknownRecipient

  datatype Record = Record(time: real, source: Value, destination: Value, kind: Kind, topic: Value, id: string,
                           correlation: Option<string>, disposition: Disposition, status: int)

  function RecordOf(m: Message, disposition: Disposition, status: int, time: real): Record {
    var topic := if "topic" in m.metadata.extra then m.metadata.extra["topic"] else Null;
    Record(time, m.metadata.sender, m.metadata.recipient, m.kind, topic, m.id, m.correlation, disposition, status)
  }

  /** A record names its message: who sent it to whom, what it is, what it answers and its topic, if it has one. */
  lemma RecordTells(m: Message, disposition: Disposition, status: int, time: real)
    ensures var r := RecordOf(m, disposition, status, time);
            && r.source == m.metadata.sender && r.destination == m.metadata.recipient
            && r.kind == m.kind && r.id == m.id && r.correlation == m.correlation
            && r.disposition == disposition && r.status == status && r.time == time
            && r.topic == Get(m.metadata.extra, "topic")
  {
  }

  // ---- the ring buffer --------------------------------------------------------

  /** The last `n` elements, or everything when there are fewer. */
  function LastN<T>(s: seq<T>, n: nat): (r: seq<T>)
    ensures |r| == if |s| <= n then |s| else n
    ensures forall i :: 0 <= i < |r| ==> r[i] == s[|s| - |r| + i]
  {
    if |s| <= n then s else s[|s| - n..]
  }

  /** `deque(maxlen=n).append`. */
  function Push<T>(buffer: seq<T>, n: nat, x: T): seq<T> {
    LastN(buffer + [x], n)
  }

  function PushAll<T>(buffer: seq<T>, n: nat, xs: seq<T>): seq<T>
    decreases |xs|
  {
    if xs == [] then buffer else PushAll(Push(buffer, n, xs[0]), n, xs[1..])
  }

  /** Whatever has been recorded so far, the buffer is the last `n` records of all of it. */
  lemma {:induction false} BufferIsRecentHistory<T>(before: seq<T>, n: nat, xs: seq<T>)
    ensures PushAll(LastN(before, n), n, xs) == LastN(before + xs, n)
    decreases |xs|
  {
    if xs == [] {
      assert before + xs == before;
    } else {
      assert Push(LastN(before, n), n, xs[0]) == LastN(before + [xs[0]], n);
      BufferIsRecentHistory(before + [xs[0]], n, xs[1..]);
      assert before + [xs[0]] + xs[1..] == before + xs;
    }
  }

  // ---- the query ----------------------------------------------------------------

  function Filter<T>(s: seq<T>, p: T -> bool): seq<T> {
    if s == [] then []
    else if p(s[0]) then [s[0]] + Filter(s[1..], p)
    else Filter(s[1..], p)
  }

  /** The query string, with `since`, `until` and `limit` already read as numbers where they are numbers. */
  datatype Query = Query(agent: Option<string>, topic: Option<string>, since: Option<real>, until: Option<real>,
                         limit: Option<int>)

  /** An absent or empty string does not filter. */
  predicate Given(filter: Option<string>) {
    filter.Some? && filter.value != ""
  }

  function ByAgent(q: Query): Record -> bool {
    (r: Record) => q.agent.Some? && (r.source == Str(q.agent.value) || r.destination == Str(q.agent.value))
  }

  function ByTopic(q: Query): Record -> bool {
    (r: Record) => q.topic.Some? && r.topic == Str(q.topic.value)
  }

  function BySince(q: Query): Record -> bool {
    (r: Record) => q.since.Some? && r.time >= q.since.value
  }

  function ByUntil(q: Query): Record -> bool {
    (r: Record) => q.until.Some? && r.time <= q.until.value
  }

  function FilterIf<T>(given: bool, s: seq<T>, p: T -> bool): seq<T> {
    if given then Filter(s, p) else s
  }

  /** One pass per given filter, then the limit, as the handler does it. */
  function Answer(buffer: seq<Record>, maxlen: nat, q: Query): seq<Record> {
    var r1 := FilterIf(Given(q.agent), buffer, ByAgent(q));
    var r2 := FilterIf(Given(q.topic), r1, ByTopic(q));
    var r3 := FilterIf(q.since.Some?, r2, BySince(q));
    var r4 := FilterIf(q.until.Some?, r3, ByUntil(q));
    if q.limit.Some? && q.limit.value > 0 then
      var cap := if maxlen == 0 then 1000 else maxlen;
      LastN(r4, if q.limit.value <= cap then q.limit.value else cap)
    else r4
  }

  /** What a caller asks for. */
  predicate Wanted(q: Query, r: Record) {
    && (Given(q.agent) ==> r.source == Str(q.agent.value) || r.destination == Str(q.agent.value))
    && (Given(q.topic) ==> r.topic == Str(q.topic.value))
    && (q.since.Some? ==> r.time >= q.since.value)
    && (q.until.Some? ==> r.time <= q.until.value)
  }

  lemma {:induction false} FilterTwice<T>(s: seq<T>, p: T -> bool, q: T -> bool, both: T -> bool)
    requires forall x <- s :: both(x) <==> p(x) && q(x)
    ensures Filter(Filter(s, p), q) == Filter(s, both)
  {
    if s != [] {
      FilterTwice(s[1..], p, q, both);
      if p(s[0]) { assert Filter(s, p)[1..] == Filter(s[1..], p); }
    }
  }

  lemma {:induction false} FilterAll<T>(s: seq<T>, p: T -> bool)
    requires forall x <- s :: p(x)
    ensures Filter(s, p) == s
  {
    if s != [] { FilterAll(s[1..], p); }
  }

  lemma {:induction false} FilterLength<T>(s: seq<T>, p: T -> bool)
    ensures |Filter(s, p)| <= |s|
  {
    if s != [] { FilterLength(s[1..], p); }
  }

  lemma {:induction false} SameFilter<T>(s: seq<T>, p: T -> bool, q: T -> bool)
    requires forall x <- s :: p(x) <==> q(x)
    ensures Filter(s, p) == Filter(s, q)
  {
    if s != [] { SameFilter(s[1..], p, q); }
  }

  /** An optional further pass is a filter by an implication. */
  lemma Narrow<T>(s: seq<T>, given: bool, p: T -> bool, sofar: T -> bool, narrowed: T -> bool)
    requires forall x <- s :: narrowed(x) <==> sofar(x) && (given ==> p(x))
    ensures FilterIf(given, Filter(s, sofar), p) == Filter(s, narrowed)
  {
    if given { FilterTwice(s, sofar, p, narrowed); } else { SameFilter(s, sofar, narrowed); }
  }

  lemma PassesMeetQuery(s: seq<Record>, q: Query)
    ensures FilterIf(q.until.Some?, FilterIf(q.since.Some?, FilterIf(Given(q.topic), FilterIf(Given(q.agent),
              s, ByAgent(q)), ByTopic(q)), BySince(q)), ByUntil(q))
            == Filter(s, (r: Record) => Wanted(q, r))
  {
    var all := (r: Record) => true;
    var agent := (r: Record) => Given(q.agent) ==> ByAgent(q)(r);
    var topic := (r: Record) => agent(r) && (Given(q.topic) ==> ByTopic(q)(r));
    var since := (r: Record) => topic(r) && (q.since.Some? ==> BySince(q)(r));
    FilterAll(s, all);
    Narrow(s, Given(q.agent), ByAgent(q), all, agent);
    Narrow(s, Given(q.topic), ByTopic(q), agent, topic);
    Narrow(s, q.since.Some?, BySince(q), topic, since);
    Narrow(s, q.until.Some?, ByUntil(q), since, (r: Record) => Wanted(q, r));
  }

  /**
   * A query returns, oldest first, the records among the last `maxlen` ever made that satisfy
   * every given filter, cut down to the last `limit` when a positive limit is given.
   */
  lemma AnswerMeetsQuery(history: seq<Record>, maxlen: nat, q: Query)
    requires maxlen > 0
    ensures var wanted := Filter(LastN(history, maxlen), (r: Record) => Wanted(q, r));
            Answer(PushAll([], maxlen, history), maxlen, q)
            == if q.limit.Some? && q.limit.value > 0 then LastN(wanted, q.limit.value) else wanted
  {
    BufferIsRecentHistory([], maxlen, history);
    assert LastN<Record>([], maxlen) == [] && [] + history == history;
    var buffer := LastN(history, maxlen);
    PassesMeetQuery(buffer, q);
    FilterLength(buffer, (r: Record) => Wanted(q, r));
  }
}
