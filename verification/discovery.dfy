/** The client's server discovery (src/App.jsx:14-79): probe the health
    endpoint on 3000, then 3001, then 3002 without delay, then retry the
    last port with exponential backoff, and rerun the whole search on every
    30-second poll.  Probe outcomes are inputs; timers become delays. */
module ServerDiscovery {
  import opened Js
  import Handler

  /** The three values `serverStatus` takes. */
  datatype Status = Checking | Running | Error

  /** The discovery state `App` keeps: `serverStatus` and `serverPort`. */
  datatype Ui = Ui(status: Status, port: int)

  /** `useState(3000)`: the port every discovery run starts from. */
  const InitialPort := 3000
  const MaxRetries := 3

  /** What one health probe saw: an HTTP answer with the `status` field of its
      JSON body (absent when the body has none), or nothing usable (network
      failure, the 5-second abort, a body that is not JSON). */
  datatype Probe = Answer(code: int, bodyStatus: Option<string>) | NoAnswer

  /** Lines 28-40: only a 2xx answer whose body says `"ok"` counts. */
  predicate ProbeSucceeded(p: Probe)
    ensures p.NoAnswer? ==> !ProbeSucceeded(p)
    ensures p.Answer? && !(200 <= p.code < 300) ==> !ProbeSucceeded(p)
    ensures p.Answer? && p.bodyStatus != Some("ok") ==> !ProbeSucceeded(p)
  {
    p.Answer? && Handler.IsOk(p.code) && p.bodyStatus == Some("ok")
  }

  /** How the browser sees a reply of the health endpoint. */
  function ProbeOf(r: Handler.Reply): Probe {
    Answer(r.code, if r.body.Health? then Some(r.body.status) else None)
  }

  /** Client and server agree: probing a live server succeeds exactly when
      its API key is configured. */
  lemma HealthProbeSucceedsIffKey(hasKey: bool)
    ensures ProbeSucceeded(ProbeOf(Handler.HealthCheck(hasKey))) <==> hasKey
  {
  }

  /** A 200 whose body reports an error is a failed probe, as is a 503. */
  lemma OkStatusWithErrorBodyFails()
    ensures !ProbeSucceeded(Answer(200, Some("error")))
    ensures !ProbeSucceeded(Answer(503, Some("ok")))
  {
  }

  /** What `checkServer` does after its probe: stop (found), probe another
      port right away, schedule a retry after a delay, or give up. */
  datatype Next =
    | Found
    | ProbeNow(port: int, retry: nat)
    | Backoff(delayMs: nat, port: int, retry: nat)
    | Terminal

  datatype Transition = Transition(ui: Ui, next: Next)

  /** Probes a run from `(port, retry)` can still make after this one. */
  function Rank(port: int, retry: nat): nat {
    if retry >= MaxRetries then 0
    else MaxRetries - retry + Immediate(port, retry)
  }

  /** How many probes still follow at once, without a wait: the fallbacks
      3000 → 3001 → 3002 of the first attempt. */
  function Immediate(port: int, retry: nat): nat {
    if retry == 0 && port == 3000 then 2 else if retry == 0 && port == 3001 then 1 else 0
  }

  /** `Math.pow(2, retry) * 1000`: the wait before retry `retry + 1`. */
  function BackoffDelay(retry: nat): (d: nat)
    ensures d >= 1000
  {
    Pow2(retry) * 1000
  }

  /** Every wait the retries from retry count `k` on can take, in order:
      `2^k`, `2^(k+1)`, ... seconds, up to the third retry. */
  function Schedule(k: nat): (ds: seq<nat>)
    ensures |ds| == if k < MaxRetries then MaxRetries - k else 0
    decreases MaxRetries - k
  {
    if k >= MaxRetries then [] else [BackoffDelay(k)] + Schedule(k + 1)
  }

  /** The `i`-th of those waits is `2^(k+i)` seconds. */
  lemma {:induction false} ScheduleAt(k: nat, i: nat)
    requires i < |Schedule(k)|
    ensures Schedule(k)[i] == BackoffDelay(k + i)
    decreases i
  {
    if i > 0 {
      ScheduleAt(k + 1, i - 1);
    }
  }

  /** The two failures that move on to the next port at once, without
      touching the state: (3000, 0) and (3001, 0). */
  predicate Advances(port: int, retry: nat) {
    retry == 0 && (port == 3000 || port == 3001)
  }

  /** `checkServer(retry, port)` once its probe is answered (lines 28-67),
      as the code is written. */
  function Step(ui: Ui, port: int, retry: nat, probe: Probe): (t: Transition)
    ensures t.next.Found? <==> ProbeSucceeded(probe)
    ensures t.next.Found? ==> t.ui == Ui(Running, port)
    ensures t.next.ProbeNow? <==> !ProbeSucceeded(probe) && Advances(port, retry)
    ensures t.next.ProbeNow? ==> t == Transition(ui, ProbeNow(port + 1, 0))
    ensures t.next.Backoff? <==> !ProbeSucceeded(probe) && !Advances(port, retry) && retry < MaxRetries
    ensures t.next.Backoff? ==>
      (t.ui == ui.(status := Error) && t.next == Backoff(BackoffDelay(retry), port, retry + 1))
    ensures t.next.Terminal? ==> t.ui == ui.(status := Error)
    ensures t.next.ProbeNow? || t.next.Backoff? ==> Rank(t.next.port, t.next.retry) + 1 == Rank(port, retry)
  {
    if ProbeSucceeded(probe) then Transition(Ui(Running, port), Found)
    else if port == 3000 && retry == 0 then Transition(ui, ProbeNow(3001, 0))
    else if port == 3001 && retry == 0 then Transition(ui, ProbeNow(3002, 0))
    else if retry < MaxRetries then Transition(ui.(status := Error), Backoff(BackoffDelay(retry), port, retry + 1))
    else Transition(ui.(status := Error), Terminal)
  }

  /** The port the `i`-th probe of a run from `(port, retry)` goes to: the
      immediate advances move one port up, retries stay on the port. */
  function ProbePort(port: int, retry: nat, i: nat): int
    decreases i
  {
    if i > 0 && Advances(port, retry) then ProbePort(port + 1, 0, i - 1) else port
  }

  /** A whole discovery run: the final state, the ports probed in order and
      the delays waited between them. */
  datatype Run = Run(ui: Ui, probes: seq<int>, delays: seq<nat>)

  /** The outcomes left once the first probe has used its own. */
  function Rest(answers: seq<Probe>): seq<Probe> {
    if |answers| == 0 then [] else answers[1..]
  }

  /** The outcome of the `i`-th probe of a run; probes past the end of the
      given outcomes get no answer. */
  function AnswerAt(answers: seq<Probe>, i: nat): Probe
    decreases i
  {
    if i > 0 then AnswerAt(Rest(answers), i - 1)
    else if |answers| == 0 then NoAnswer
    else answers[0]
  }

  /** The run `checkServer(retry, port)` starts, as the code is written. */
  function Discover(ui: Ui, port: int, retry: nat, answers: seq<Probe>): (r: Run)
    ensures 1 <= |r.probes| <= Rank(port, retry) + 1 && r.probes[0] == port
    ensures |r.delays| < |r.probes|
    ensures r.delays <= Schedule(retry)
    ensures forall i :: 0 <= i < |r.probes| ==> r.probes[i] == ProbePort(port, retry, i)
    ensures forall i :: 0 <= i < |r.probes| - 1 ==> !ProbeSucceeded(AnswerAt(answers, i))
    ensures r.ui.status == Running <==> ProbeSucceeded(AnswerAt(answers, |r.probes| - 1))
    ensures r.ui.status == Running ==> r.ui.port == r.probes[|r.probes| - 1]
    ensures r.ui.status != Running ==> r.ui == ui.(status := Error)
    decreases Rank(port, retry)
  {
    var t := Step(ui, port, retry, AnswerAt(answers, 0));
    match t.next
    case ProbeNow(p, k) =>
      var rest := Discover(t.ui, p, k, Rest(answers));
      Run(rest.ui, [port] + rest.probes, rest.delays)
    case Backoff(d, p, k) =>
      var rest := Discover(t.ui, p, k, Rest(answers));
      Run(rest.ui, [port] + rest.probes, [d] + rest.delays)
    case _ =>
      Run(t.ui, [port], [])
  }

  /** The ports a poll probes when nothing answers. */
  const FullSearch: seq<int> := [3000, 3001, 3002, 3002, 3002, 3002]

  /** The waits of a poll that never finds the server. */
  lemma FullSchedule()
    ensures Schedule(0) == [1000, 2000, 4000]
  {
    assert Schedule(2) == [4000];
    assert Schedule(1) == [2000, 4000];
  }

  /** A poll's `i`-th probe goes to `FullSearch[i]`. */
  lemma FullSearchPorts(i: nat)
    requires i < |FullSearch|
    ensures ProbePort(InitialPort, 0, i) == FullSearch[i]
  {
    if i >= 2 {
      assert ProbePort(InitialPort, 0, i) == ProbePort(3002, 0, i - 2);
    }
  }

  /** One poll: `checkServer()` with its defaults.  The callback is created
      once with no dependencies, so its default port is the initial
      `serverPort` whatever the current one is. */
  function Poll(ui: Ui, answers: seq<Probe>): (r: Run)
    ensures 1 <= |r.probes| <= 6 && r.probes[0] == InitialPort
    ensures r.probes <= FullSearch
    ensures r.ui.status != Running ==> |r.probes| == 6 && r.delays == [1000, 2000, 4000]
    ensures |r.delays| == if |r.probes| > 3 then |r.probes| - 3 else 0
  {
    FullSearchProbes(ui, answers);
    FailingRunExhaustsRetries(ui, InitialPort, 0, answers);
    WaitsMatchRetries(ui, InitialPort, 0, answers);
    FullSchedule();
    Discover(ui, InitialPort, 0, answers)
  }

  /** The probes of a run from (3000, 0) follow the full search. */
  lemma FullSearchProbes(ui: Ui, answers: seq<Probe>)
    ensures Discover(ui, InitialPort, 0, answers).probes <= FullSearch
  {
    var r := Discover(ui, InitialPort, 0, answers);
    forall i | 0 <= i < |r.probes|
      ensures r.probes[i] == FullSearch[i]
    {
      FullSearchPorts(i);
    }
    assert r.probes == FullSearch[..|r.probes|];
  }

  /** A run that does not find the server uses up every probe its rank
      allows and waits out the whole backoff schedule: the retries go on
      until retry 3. */
  lemma {:induction false} FailingRunExhaustsRetries(ui: Ui, port: int, retry: nat, answers: seq<Probe>)
    ensures var r := Discover(ui, port, retry, answers);
      r.ui.status != Running ==> |r.probes| == Rank(port, retry) + 1 && r.delays == Schedule(retry)
    decreases Rank(port, retry)
  {
    var t := Step(ui, port, retry, AnswerAt(answers, 0));
    match t.next
    case ProbeNow(p, k) => FailingRunExhaustsRetries(t.ui, p, k, Rest(answers));
    case Backoff(d, p, k) => FailingRunExhaustsRetries(t.ui, p, k, Rest(answers));
    case _ =>
  }

  /** Every probe after the immediate fallbacks comes after one wait, whether
      or not the run ends up finding the server. */
  lemma {:induction false} WaitsMatchRetries(ui: Ui, port: int, retry: nat, answers: seq<Probe>)
    ensures var r := Discover(ui, port, retry, answers);
      |r.delays| == if |r.probes| - 1 > Immediate(port, retry) then |r.probes| - 1 - Immediate(port, retry) else 0
    decreases Rank(port, retry)
  {
    var t := Step(ui, port, retry, AnswerAt(answers, 0));
    match t.next
    case ProbeNow(p, k) => WaitsMatchRetries(t.ui, p, k, Rest(answers));
    case Backoff(d, p, k) => WaitsMatchRetries(t.ui, p, k, Rest(answers));
    case _ =>
  }

  /** The probes and delays of a run do not depend on the state it starts in. */
  lemma {:induction false} DiscoverIgnoresState(ui1: Ui, ui2: Ui, port: int, retry: nat, answers: seq<Probe>)
    ensures Discover(ui1, port, retry, answers).probes == Discover(ui2, port, retry, answers).probes
    ensures Discover(ui1, port, retry, answers).delays == Discover(ui2, port, retry, answers).delays
    decreases Rank(port, retry)
  {
    var t1 := Step(ui1, port, retry, AnswerAt(answers, 0));
    var t2 := Step(ui2, port, retry, AnswerAt(answers, 0));
    assert t1.next == t2.next;
    match t1.next
    case ProbeNow(p, k) => DiscoverIgnoresState(t1.ui, t2.ui, p, k, Rest(answers));
    case Backoff(d, p, k) => DiscoverIgnoresState(t1.ui, t2.ui, p, k, Rest(answers));
    case _ =>
  }

  /** Every poll searches from port 3000, even after the server was found on
      another port. */
  lemma PollIgnoresCachedPort(ui: Ui, answers: seq<Probe>)
    ensures Poll(ui, answers).probes == Poll(Ui(Checking, InitialPort), answers).probes
    ensures Poll(ui, answers).delays == Poll(Ui(Checking, InitialPort), answers).delays
  {
    DiscoverIgnoresState(ui, Ui(Checking, InitialPort), InitialPort, 0, answers);
  }

  /** When no probe is answered the written logic probes 3000, 3001, 3002 and
      then 3002 three more times after 1, 2 and 4 seconds, and ends in
      `"error"` with the port unchanged. */
  lemma AllProbesFail(ui: Ui)
    ensures Poll(ui, []) == Run(ui.(status := Error), [3000, 3001, 3002, 3002, 3002, 3002], [1000, 2000, 4000])
  {
    var e := ui.(status := Error);
    assert Discover(e, 3002, 3, []) == Run(e, [3002], []);
    assert Discover(e, 3002, 2, []) == Run(e, [3002, 3002], [4000]);
    assert Discover(e, 3002, 1, []) == Run(e, [3002, 3002, 3002], [2000, 4000]);
    assert Discover(ui, 3002, 0, []) == Run(e, [3002, 3002, 3002, 3002], [1000, 2000, 4000]);
    assert Discover(ui, 3001, 0, []) == Run(e, [3001, 3002, 3002, 3002, 3002], [1000, 2000, 4000]);
  }

  /** Each wait of the schedule is twice the one before. */
  lemma ScheduleDoubles(k: nat, i: nat)
    requires 0 < i < |Schedule(k)|
    ensures Schedule(k)[i] == 2 * Schedule(k)[i - 1]
  {
    ScheduleAt(k, i);
    ScheduleAt(k, i - 1);
    assert Pow2(k + i) == 2 * Pow2(k + i - 1);
  }

  /** Exponential backoff: each wait of a run is twice the one before. */
  lemma BackoffDelaysDouble(ui: Ui, port: int, retry: nat, answers: seq<Probe>)
    ensures var r := Discover(ui, port, retry, answers);
      forall i :: 0 < i < |r.delays| ==> r.delays[i] == 2 * r.delays[i - 1]
  {
    var ds := Discover(ui, port, retry, answers).delays;
    assert ds <= Schedule(retry);
    forall i | 0 < i < |ds|
      ensures ds[i] == 2 * ds[i - 1]
    {
      assert ds[i] == Schedule(retry)[i] && ds[i - 1] == Schedule(retry)[i - 1];
      ScheduleDoubles(retry, i);
    }
  }

  /** A server on 3001 is found by the second probe, with no delay. */
  lemma FoundOnAlternatePort(ui: Ui)
    ensures Poll(ui, [NoAnswer, Answer(200, Some("ok"))]) == Run(Ui(Running, 3001), [3000, 3001], [])
  {
    assert Discover(ui, 3001, 0, Rest([NoAnswer, Answer(200, Some("ok"))])) == Run(Ui(Running, 3001), [3001], []);
  }

  /** `checkServer` as it actually executes: `setError` is never declared in
      `App`, so the call at line 57 (and at line 64) throws right after the
      status became `"error"`, and the retry timer of line 59 is never set. */
  function StepAsExecuted(ui: Ui, port: int, retry: nat, probe: Probe): (t: Transition)
    ensures !t.next.Backoff?
    ensures !Step(ui, port, retry, probe).next.Backoff? ==> t == Step(ui, port, retry, probe)
    ensures t.next.Terminal? <==> Step(ui, port, retry, probe).next.Backoff? || Step(ui, port, retry, probe).next.Terminal?
    ensures t.ui == Step(ui, port, retry, probe).ui
  {
    var t := Step(ui, port, retry, probe);
    if t.next.Backoff? then Transition(t.ui, Terminal) else t
  }

  /** A discovery run as executed: at most the three immediate probes. */
  function DiscoverAsExecuted(ui: Ui, port: int, retry: nat, answers: seq<Probe>): (r: Run)
    ensures 1 <= |r.probes| && r.probes[0] == port && r.delays == []
    ensures retry == 0 && port == InitialPort ==> |r.probes| <= 3
    ensures forall i :: 0 <= i < |r.probes| ==> r.probes[i] == ProbePort(port, retry, i)
    ensures |r.probes| <= 1 + Immediate(port, retry)
    ensures r.ui.status != Running ==> |r.probes| == 1 + Immediate(port, retry)
    ensures forall i :: 0 <= i < |r.probes| - 1 ==> !ProbeSucceeded(AnswerAt(answers, i))
    ensures r.ui.status == Running <==> ProbeSucceeded(AnswerAt(answers, |r.probes| - 1))
    ensures r.ui.status == Running ==> r.ui.port == r.probes[|r.probes| - 1]
    ensures r.ui.status != Running ==> r.ui == ui.(status := Error)
    decreases Rank(port, retry)
  {
    var t := StepAsExecuted(ui, port, retry, AnswerAt(answers, 0));
    match t.next
    case ProbeNow(p, k) =>
      var rest := DiscoverAsExecuted(t.ui, p, k, Rest(answers));
      Run(rest.ui, [port] + rest.probes, rest.delays)
    case _ =>
      Run(t.ui, [port], [])
  }

  /** The written logic and the executed one part ways at the first backoff:
      with nothing answering, the executed run stops after 3002 with
      `"error"` and waits for the next 30-second poll instead of retrying. */
  lemma UndeclaredSetErrorStopsBackoff(ui: Ui)
    ensures DiscoverAsExecuted(ui, InitialPort, 0, []) == Run(ui.(status := Error), [3000, 3001, 3002], [])
    ensures Poll(ui, []).delays == [1000, 2000, 4000]
  {
    AllProbesFail(ui);
    var e := ui.(status := Error);
    assert DiscoverAsExecuted(ui, 3002, 0, []) == Run(e, [3002], []);
    assert DiscoverAsExecuted(ui, 3001, 0, []) == Run(e, [3001, 3002], []);
  }
}
