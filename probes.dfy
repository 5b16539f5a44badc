/** The TLS probe fan-out inside notify.js's `handler`: which monitors are
    probed and on which host and port, and how the completion callbacks of
    the probes fill the shared `blocks` and `text` arrays. The TLS handshake
    itself is not modelled: each probe's outcome is an input, and the order in
    which the probes complete is an arbitrary sequence of completions. */
module Probes {
  import opened Wrappers
  import opened Sequences
  import opened Text
  import opened UptimeRobot
  import opened Slack

  const HttpsScheme := "https://"
  const DefaultTlsPort := 443

  /** `s.filter(keep)` */
  function Filter<T(!new)>(s: seq<T>, keep: T -> bool): (r: seq<T>)
    ensures |r| <= |s|
    ensures forall x :: x in r <==> x in s && keep(x)
  {
    if s == [] then [] else (if keep(s[0]) then [s[0]] else []) + Filter(s[1..], keep)
  }

  /** The filter keeps every occurrence of an element that passes the test
      and none of one that fails it. */
  lemma {:induction false} FilterCounts<T(!new)>(s: seq<T>, keep: T -> bool)
    ensures forall x :: multiset(Filter(s, keep))[x] == if keep(x) then multiset(s)[x] else 0
  {
    if s != [] {
      FilterCounts(s[1..], keep);
      assert s == [s[0]] + s[1..];
    }
  }

  /** On one element, the filter keeps it exactly when the test holds; with
      `FilterAppend` this fixes the result, order included. */
  lemma FilterSingle<T(!new)>(x: T, keep: T -> bool)
    ensures Filter([x], keep) == if keep(x) then [x] else []
  {
    assert [x][1..] == [];
  }

  /** Two filters in a row keep what one filter on both conditions keeps,
      in the same order. */
  lemma {:induction false} FilterTwice<T(!new)>(s: seq<T>, p: T -> bool, q: T -> bool, both: T -> bool)
    requires forall x :: both(x) == (p(x) && q(x))
    ensures Filter(Filter(s, p), q) == Filter(s, both)
  {
    if s != [] {
      FilterTwice(s[1..], p, q, both);
      var head := if p(s[0]) then [s[0]] else [];
      FilterAppend(head, Filter(s[1..], p), q);
      if p(s[0]) {
        assert Filter(head, q) == if q(s[0]) then [s[0]] else [] by {
          assert head[1..] == [];
        }
      }
    }
  }

  /** Filtering a concatenation filters each part, keeping the order. */
  lemma {:induction false} FilterAppend<T(!new)>(a: seq<T>, b: seq<T>, keep: T -> bool)
    ensures Filter(a + b, keep) == Filter(a, keep) + Filter(b, keep)
  {
    if a != [] {
      assert (a + b)[0] == a[0] && (a + b)[1..] == a[1..] + b;
      FilterAppend(a[1..], b, keep);
    } else {
      assert a + b == b;
    }
  }

  /** `monitor.url.startsWith("https://")` */
  predicate IsHttps(m: Monitor) {
    StartsWith(m.url, HttpsScheme)
  }

  /** `monitor.status === 2` */
  predicate IsUp(m: Monitor) {
    m.status == StatusUp
  }

  /** The two filters of the handler: HTTPS monitors, then those that are up. */
  function SelectMonitors(ms: seq<Monitor>): (r: seq<Monitor>)
    ensures |r| <= |ms|
    ensures forall m :: m in r <==> m in ms && IsHttps(m) && IsUp(m)
  {
    Filter(Filter(ms, IsHttps), IsUp)
  }

  /** Selection keeps the monitor list's order: it is one filter on both
      conditions. */
  lemma SelectionIsOneFilter(ms: seq<Monitor>)
    ensures SelectMonitors(ms) == Filter(ms, m => IsHttps(m) && IsUp(m))
  {
    FilterTwice(ms, IsHttps, IsUp, m => IsHttps(m) && IsUp(m));
  }

  /** A monitor is selected as many times as it is listed when it is an
      HTTPS monitor that is up, and never otherwise. */
  lemma SelectionCounts(ms: seq<Monitor>)
    ensures forall m :: multiset(SelectMonitors(ms))[m] == if IsHttps(m) && IsUp(m) then multiset(ms)[m] else 0
  {
    var both := (m: Monitor) => IsHttps(m) && IsUp(m);
    FilterTwice(ms, IsHttps, IsUp, both);
    FilterCounts(ms, both);
  }

  /** One TLS probe to make: the monitor's name, the host and port to
      connect to, and the monitor's URL. */
  datatype Target = Target(title: string, host: string, port: nat, monitorUrl: string)

  /** The target of a selected monitor: `url.hostname`, and
      `url.port ? parseInt(url.port, 10) : 443`. `None` when `new URL`
      throws. */
  function TargetOf(m: Monitor): (t: Option<Target>)
    ensures t.Some? <==> m.location.Some?
    ensures t.Some? ==> t.value.title == m.friendlyName && t.value.monitorUrl == m.url
    ensures t.Some? ==> t.value.host == m.location.value.hostname
    ensures t.Some? && m.location.value.port == "" ==> t.value.port == DefaultTlsPort
    ensures t.Some? && m.location.value.port != "" ==> NatToString(t.value.port) == m.location.value.port
  {
    match m.location
    case None => None
    case Some(loc) =>
      if loc.port == "" then Some(Target(m.friendlyName, loc.hostname, DefaultTlsPort, m.url))
      else (NatToStringParse(loc.port); Some(Target(m.friendlyName, loc.hostname, ParseDecimal(loc.port), m.url)))
  }

  /** The targets of the monitors whose URL parses, in list order: the
      probes that `tls.connect` is called for. */
  function Targets(ms: seq<Monitor>): (ts: seq<Target>)
    ensures |ts| <= |ms|
  {
    if ms == [] then []
    else
      match TargetOf(ms[0])
      case Some(t) => [t] + Targets(ms[1..])
      case None => Targets(ms[1..])
  }

  /** One monitor gives its target when its URL parses, and none otherwise. */
  lemma TargetsSingle(m: Monitor)
    ensures Targets([m]) == match TargetOf(m) case Some(t) => [t] case None => []
  {
    assert [m][1..] == [];
  }

  /** The targets of a concatenation are those of each part, in order; with
      `TargetsSingle` this fixes the targets of every list. */
  lemma {:induction false} TargetsAppend(a: seq<Monitor>, b: seq<Monitor>)
    ensures Targets(a + b) == Targets(a) + Targets(b)
  {
    if a != [] {
      assert (a + b)[0] == a[0] && (a + b)[1..] == a[1..] + b;
      TargetsAppend(a[1..], b);
    } else {
      assert a + b == b;
    }
  }

  /** Every target is the target of one of the monitors. */
  lemma {:induction false} TargetsComeFromMonitors(ms: seq<Monitor>)
    ensures forall t :: t in Targets(ms) ==> exists m :: m in ms && TargetOf(m) == Some(t)
  {
    if ms != [] {
      TargetsComeFromMonitors(ms[1..]);
      assert forall m :: m in ms[1..] ==> m in ms;
    }
  }

  /** When every URL parses, the targets are those of the monitors,
      position by position. */
  lemma {:induction false} TargetsOfLocated(ms: seq<Monitor>)
    requires AllLocated(ms)
    ensures |Targets(ms)| == |ms|
    ensures forall i :: 0 <= i < |ms| ==> Some(Targets(ms)[i]) == TargetOf(ms[i])
  {
    if ms != [] {
      TargetsOfLocated(ms[1..]);
      assert Targets(ms) == [TargetOf(ms[0]).value] + Targets(ms[1..]);
    }
  }

  /** Whether `new URL(monitorUrl)` succeeds for every selected monitor; when
      it throws for one, that monitor's promise rejects and so does
      `Promise.all`. */
  predicate AllLocated(ms: seq<Monitor>) {
    forall i :: 0 <= i < |ms| ==> ms[i].location.Some?
  }

  /** How one probe ended: the secure-connect callback, the socket's `error`
      event, or an exception thrown by `tls.connect` itself (the `catch`). */
  datatype ProbeOutcome = Connected | ErrorEvent(err: string) | ConnectThrew(err: string)

  /** One probe callback, in the order the callbacks ran. */
  datatype Completion = Completion(target: Target, outcome: ProbeOutcome)

  function FailureFor(t: Target, err: string): ProbeFailure {
    ProbeFailure(t.title, t.host, t.port, t.monitorUrl, err)
  }

  /** What a completion adds to the failures: nothing on success, and the
      same failure on the `error` path and the `catch` path. */
  function FailureOf(c: Completion): (f: Option<ProbeFailure>)
    ensures f.None? <==> c.outcome.Connected?
    ensures f.Some? ==> f.value == FailureFor(c.target, c.outcome.err)
  {
    match c.outcome
    case Connected => None
    case ErrorEvent(err) => Some(FailureFor(c.target, err))
    case ConnectThrew(err) => Some(FailureFor(c.target, err))
  }

  function FailureSeq(c: Completion): seq<ProbeFailure> {
    match FailureOf(c)
    case None => []
    case Some(f) => [f]
  }

  /** The failures recorded by a run of completions, in completion order. */
  function Failures(cs: seq<Completion>): (fs: seq<ProbeFailure>)
    ensures |fs| <= |cs|
  {
    if cs == [] then [] else Failures(cs[..|cs| - 1]) + FailureSeq(cs[|cs| - 1])
  }

  lemma {:induction false} FailuresAppend(a: seq<Completion>, b: seq<Completion>)
    ensures Failures(a + b) == Failures(a) + Failures(b)
  {
    if b != [] {
      assert (a + b)[..|a + b| - 1] == a + b[..|b| - 1];
      FailuresAppend(a, b[..|b| - 1]);
    } else {
      assert a + b == a;
    }
  }

  lemma FailuresSingle(c: Completion)
    ensures Failures([c]) == FailureSeq(c)
  {
    assert [c][..0] == [];
  }

  /** Every recorded failure comes from a completion that did not connect. */
  lemma {:induction false} FailuresComeFromCompletions(cs: seq<Completion>)
    ensures forall f :: f in Failures(cs) ==>
              exists i :: 0 <= i < |cs| && !cs[i].outcome.Connected? && f == FailureFor(cs[i].target, cs[i].outcome.err)
  {
    if cs != [] {
      var init := cs[..|cs| - 1];
      FailuresComeFromCompletions(init);
      forall f | f in Failures(cs)
        ensures exists i :: 0 <= i < |cs| && !cs[i].outcome.Connected? && f == FailureFor(cs[i].target, cs[i].outcome.err)
      {
        if f in Failures(init) {
          var i :| 0 <= i < |init| && !init[i].outcome.Connected? && f == FailureFor(init[i].target, init[i].outcome.err);
          assert cs[i] == init[i];
        } else {
          assert f in FailureSeq(cs[|cs| - 1]);
        }
      }
    }
  }

  /** Every completion that did not connect has its failure recorded. */
  lemma {:induction false} FailingCompletionRecorded(cs: seq<Completion>, k: nat)
    requires k < |cs| && !cs[k].outcome.Connected?
    ensures FailureFor(cs[k].target, cs[k].outcome.err) in Failures(cs)
  {
    var init := cs[..|cs| - 1];
    if k < |cs| - 1 {
      assert cs[k] == init[k];
      FailingCompletionRecorded(init, k);
    }
  }

  /** No failure is recorded exactly when every probe callback was a
      successful connect. */
  lemma NoFailuresIffAllConnected(cs: seq<Completion>)
    ensures Failures(cs) == [] <==> forall i :: 0 <= i < |cs| ==> cs[i].outcome.Connected?
  {
    FailuresComeFromCompletions(cs);
    if exists i :: 0 <= i < |cs| && !cs[i].outcome.Connected? {
      var i :| 0 <= i < |cs| && !cs[i].outcome.Connected?;
      FailingCompletionRecorded(cs, i);
    }
  }

  /** The callbacks of the started probes: each completion is of a probed
      target, and each probed target completes at least once (otherwise the
      join never happens). A socket can report an `error` after its connect
      callback, so a target may complete more than once. */
  predicate CompletionsFor(cs: seq<Completion>, ts: seq<Target>) {
    && (forall i :: 0 <= i < |cs| ==> cs[i].target in ts)
    && (forall t :: t in ts ==> exists i :: 0 <= i < |cs| && cs[i].target == t)
  }

  /** For the callbacks of the started probes: every recorded failure is
      that of a probed target, and every probed target either connected or
      has its failure recorded. */
  lemma FailuresOfProbedTargets(cs: seq<Completion>, ts: seq<Target>)
    requires CompletionsFor(cs, ts)
    ensures forall f :: f in Failures(cs) ==> exists t, e :: t in ts && f == FailureFor(t, e)
    ensures forall t :: t in ts ==>
              (exists i :: 0 <= i < |cs| && cs[i].target == t && cs[i].outcome.Connected?) ||
              (exists e :: FailureFor(t, e) in Failures(cs))
  {
    FailuresComeFromCompletions(cs);
    forall f | f in Failures(cs) ensures exists t, e :: t in ts && f == FailureFor(t, e) {
      var i :| 0 <= i < |cs| && !cs[i].outcome.Connected? && f == FailureFor(cs[i].target, cs[i].outcome.err);
      assert cs[i].target in ts;
    }
    forall t | t in ts
      ensures (exists i :: 0 <= i < |cs| && cs[i].target == t && cs[i].outcome.Connected?) ||
              (exists e :: FailureFor(t, e) in Failures(cs))
    {
      var i :| 0 <= i < |cs| && cs[i].target == t;
      if !cs[i].outcome.Connected? {
        FailingCompletionRecorded(cs, i);
      }
    }
  }

  /** Taking completion `i` out of the sequence takes its failure, if any,
      out of the recorded ones. */
  lemma RemoveCompletion(b: seq<Completion>, i: nat)
    requires i < |b|
    ensures Failures(b) == Failures(b[..i]) + FailureSeq(b[i]) + Failures(b[i + 1..])
    ensures Failures(b[..i] + b[i + 1..]) == Failures(b[..i]) + Failures(b[i + 1..])
  {
    var left, right := b[..i], b[i + 1..];
    SplitAt(b, i);
    FailuresAppend(left + [b[i]], right);
    FailuresAppend(left, [b[i]]);
    FailuresSingle(b[i]);
    FailuresAppend(left, right);
  }

  /** The completion order only changes the order of the failures, not which
      failures are recorded: two orders of the same completions record the
      same failures, as many times each. */
  lemma {:induction false} FailuresIgnoreCompletionOrder(a: seq<Completion>, b: seq<Completion>)
    requires multiset(a) == multiset(b)
    ensures multiset(Failures(a)) == multiset(Failures(b))
    decreases |a|
  {
    if a == [] {
      assert |b| == |multiset(b)| == 0;
    } else {
      var x := a[|a| - 1];
      assert x in multiset(b) by {
        assert x in a;
      }
      var i :| 0 <= i < |b| && b[i] == x;
      RemoveMatching(a, b, i);
      FailuresIgnoreCompletionOrder(a[..|a| - 1], b[..i] + b[i + 1..]);
      RemoveCompletion(b, i);
    }
  }

  /** The shared `blocks` and `text` arrays of one handler run, with the
      failures recorded into them so far. */
  class FailureLog {
    var blocks: seq<Block>
    var text: seq<string>
    ghost var recorded: seq<ProbeFailure>

    ghost predicate Valid()
      reads this
    {
      blocks == Accumulated(recorded) && text == FailureLines(recorded)
    }

    /** `const blocks = []; const text = [];` */
    constructor ()
      ensures Valid() && recorded == [] && blocks == [] && text == []
    {
      blocks := [];
      text := [];
      recorded := [];
    }

    /** The body of the `error` handler and of the `catch` block:
        `text.push(...)`, then `blocks.push(...formatSlackBlocks(f, blocks))`. */
    method Record(f: ProbeFailure)
      requires Valid()
      modifies this
      ensures Valid() && recorded == old(recorded) + [f]
      ensures text == old(text) + [FailedLine(f)]
      ensures blocks == old(blocks) + FormatSlackBlocks(f, old(blocks))
    {
      text := text + [FailedLine(f)];
      blocks := blocks + FormatSlackBlocks(f, blocks);
      recorded := recorded + [f];
      assert recorded[..|recorded| - 1] == old(recorded);
    }
  }

  /** The probe callbacks run in completion order against one shared log;
      the arrays hold the blocks and lines of the failures, in that order. */
  method CollectFailures(completions: seq<Completion>) returns (blocks: seq<Block>, text: seq<string>)
    ensures blocks == Accumulated(Failures(completions))
    ensures text == FailureLines(Failures(completions))
  {
    var log := new FailureLog();
    for i := 0 to |completions|
      invariant log.Valid() && log.recorded == Failures(completions[..i])
    {
      assert completions[..i + 1][..i] == completions[..i];
      var c := completions[i];
      match c.outcome
      case Connected =>
      case ErrorEvent(err) =>
        log.Record(FailureFor(c.target, err));
      case ConnectThrew(err) =>
        log.Record(FailureFor(c.target, err));
    }
    assert completions[..|completions|] == completions;
    blocks, text := log.blocks, log.text;
  }

  /** After `k` failures among the completions: `3k-1` blocks of which
      `k-1` are dividers and the first is not one, and `k` lines. */
  lemma CollectedShape(cs: seq<Completion>)
    ensures var k := |Failures(cs)|;
            && |Accumulated(Failures(cs))| == (if k == 0 then 0 else 3 * k - 1)
            && Dividers(Accumulated(Failures(cs))) == (if k == 0 then 0 else k - 1)
            && (k > 0 ==> Accumulated(Failures(cs))[0] != Divider)
            && |FailureLines(Failures(cs))| == k
  {
    AccumulatedLayout(Failures(cs));
    DividersBetweenEntries(Failures(cs));
  }

  /** A probe that connected records nothing. */
  lemma SuccessRecordsNothing(cs: seq<Completion>, t: Target)
    ensures Failures(cs + [Completion(t, Connected)]) == Failures(cs)
  {
    assert (cs + [Completion(t, Connected)])[..|cs|] == cs;
  }

  /** Of an HTTPS monitor that is up, a plain HTTP monitor and an HTTPS
      monitor that is not up, only the first is selected. */
  lemma SelectsOnlyHttpsUp(a: Monitor, b: Monitor, c: Monitor)
    requires IsHttps(a) && IsUp(a) && !IsHttps(b) && IsHttps(c) && !IsUp(c)
    ensures SelectMonitors([a, b, c]) == [a]
  {
    assert [a, b, c][1..][1..][1..] == [];
    assert [a, c][1..][1..] == [];
    assert Filter([a, b, c], IsHttps) == [a, c];
    assert [c][1..] == [];
    assert Filter([a, c], IsUp) == [a];
  }

  /** The example of a monitor list with one HTTPS monitor that is up, one
      plain HTTP monitor and one paused HTTPS monitor: only the first is
      probed, on port 443. */
  lemma OnlyHttpsUpMonitorIsProbed()
    ensures var a := Monitor("a", "https://a.test", StatusUp, Some(Location("a.test", "")));
            var b := Monitor("b", "http://b.test", StatusUp, Some(Location("b.test", "")));
            var c := Monitor("c", "https://c.test", 0, Some(Location("c.test", "")));
            Targets(SelectMonitors([a, b, c])) == [Target("a", "a.test", 443, "https://a.test")]
  {
    var a := Monitor("a", "https://a.test", StatusUp, Some(Location("a.test", "")));
    var b := Monitor("b", "http://b.test", StatusUp, Some(Location("b.test", "")));
    var c := Monitor("c", "https://c.test", 0, Some(Location("c.test", "")));
    assert IsHttps(a) && IsHttps(c);
    assert !IsHttps(b) by {
      assert b.url[4] != HttpsScheme[4];
    }
    SelectsOnlyHttpsUp(a, b, c);
    assert [a][1..] == [];
  }
}
