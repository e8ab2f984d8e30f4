/** The reload machine of the development servers (`watchDocuments` in
    `pkg/server/server.go`, `watchFiles` in `cmd/server/server.go`, which
    share it line for line): filesystem events are classified, a reload is
    offered on a channel of capacity one without blocking, and the loop
    stops on cancellation, on a closed channel or on a watcher error. The
    goroutines are replaced by one sequence of inputs, in which `Serve`
    stands for the reload loop of `listen` receiving from the channel. That
    loop is not tied to the watcher: when the watcher stops for any reason
    but cancellation, it goes on serving the pending reload. */
module Watch {
  import opened Base

  /** `fsnotify.Op`, a 32-bit mask. */
  newtype Op = x: int | 0 <= x < 0x1_0000_0000

  const Create: Op := 1
  const Write: Op := 2
  const Remove: Op := 4
  const Rename: Op := 8
  const Chmod: Op := 16

  /** The `switch event.Op`: the cases compare the whole mask, so only the
      single operations Create, Remove and Write ask for a reload. The
      Chmod case is empty (Go does not fall through into Write), and any
      other mask, a combination included, only logs a warning. */
  function RequestsReload(op: Op): (r: bool)
    ensures r <==> op == Create || op == Remove || op == Write
  {
    if op == Create then true
    else if op == Remove then true
    else if op == Chmod then false
    else if op == Write then true
    else false
  }

  /** Chmod, Rename and combined masks never ask for a reload. */
  lemma OtherOpsIgnored()
    ensures !RequestsReload(Chmod) && !RequestsReload(Rename)
    ensures !RequestsReload(Create + Write) && !RequestsReload(Write + Chmod) && !RequestsReload(Create + Remove)
  {
  }

  /** What the loop, or the reload loop beside it, receives next. */
  datatype Input =
    | Cancel                        // ctx.Done()
    | Event(name: string, op: Op)   // a value from watcher.Events
    | EventsClosed                  // watcher.Events closed
    | Failure(err: Option<string>)  // a value from watcher.Errors
    | ErrorsClosed                  // watcher.Errors closed
    | Serve                         // the reload loop receives from the channel

  /** Why the loop returned; `Exhausted` when the inputs ran out first. */
  datatype Stop = Cancelled | Closed | Failed(err: string) | Exhausted

  /** The inputs that end the loop: cancellation, a closed channel, and a
      non-nil error. A nil error is read and ignored. */
  function Stopping(i: Input): (r: Option<Stop>)
    ensures r.Some? <==> i.Cancel? || i.EventsClosed? || i.ErrorsClosed? || (i.Failure? && i.err.Some?)
    ensures r.Some? ==> r.value != Exhausted
  {
    match i
    case Cancel => Some(Cancelled)
    case EventsClosed => Some(Closed)
    case ErrorsClosed => Some(Closed)
    case Failure(e) => if e.Some? then Some(Failed(e.value)) else None
    case _ => None
  }

  /** The `reload` channel, `make(chan struct{}, 1)`: at most one value
      is pending. */
  class Channel {
    var pending: bool

    constructor ()
      ensures !pending
    {
      pending := false;
    }

    /** `select { case reload <- struct{}{}: default: }`: the offer never
        blocks; it is accepted when the slot is free and dropped otherwise. */
    method Offer() returns (sent: bool)
      modifies this
      ensures sent <==> !old(pending)
      ensures pending
    {
      sent := !pending;
      pending := true;
    }

    /** `for range reload`: one receive takes the pending value, if any. */
    method Receive() returns (got: bool)
      modifies this
      ensures got <==> old(pending)
      ensures !pending
    {
      got := pending;
      pending := false;
    }
  }

  /** The machine's state: the channel slot, and how many reloads were
      asked for, dropped because one was pending, and carried out. */
  datatype State = State(pending: bool, requests: nat, dropped: nat, reloads: nat)

  /** One input that does not stop the loop. */
  function Step(s: State, i: Input): State {
    match i
    case Event(_, op) =>
      if !RequestsReload(op) then s
      else if s.pending then s.(requests := s.requests + 1, dropped := s.dropped + 1)
      else s.(pending := true, requests := s.requests + 1)
    case Serve => if s.pending then s.(pending := false, reloads := s.reloads + 1) else s
    case _ => s
  }

  /** The reload loop after the watch loop has returned: only its receives
      count, up to the cancellation that shuts the server down. */
  function Drain(s: State, rest: seq<Input>): State
    decreases |rest|
  {
    if rest == [] || rest[0].Cancel? then s
    else Drain(if rest[0].Serve? then Step(s, Serve) else s, rest[1..])
  }

  /** The inputs read until the loop stops: the final state, the reason,
      and how many inputs the watch loop read. After a stop other than
      cancellation the reload loop drains the remaining inputs. */
  function Run(s: State, inputs: seq<Input>): (State, Stop, nat)
    decreases |inputs|
  {
    if inputs == [] then (s, Exhausted, 0)
    else match Stopping(inputs[0])
      case Some(why) => (if why == Cancelled then s else Drain(s, inputs[1..]), why, 1)
      case None =>
        var (t, why, n) := Run(Step(s, inputs[0]), inputs[1..]);
        (t, why, n + 1)
  }

  /** The watch loop over a schedule of inputs. */
  method WatchFiles(reload: Channel, inputs: seq<Input>)
    returns (stop: Stop, consumed: nat, requests: nat, dropped: nat, reloads: nat)
    modifies reload
    ensures (State(reload.pending, requests, dropped, reloads), stop, consumed) == Run(State(old(reload.pending), 0, 0, 0), inputs)
  {
    requests, dropped, reloads := 0, 0, 0;
    var i := 0;
    while i < |inputs|
      invariant 0 <= i <= |inputs|
      invariant var (t, why, n) := Run(State(reload.pending, requests, dropped, reloads), inputs[i..]);
        Run(State(old(reload.pending), 0, 0, 0), inputs) == (t, why, n + i)
      decreases |inputs| - i
    {
      assert inputs[i..][0] == inputs[i] && inputs[i..][1..] == inputs[i + 1..];
      var input := inputs[i];
      match input {
        case Cancel =>
          return Cancelled, i + 1, requests, dropped, reloads;
        case EventsClosed =>
          reloads := ServeRest(reload, inputs[i + 1..], requests, dropped, reloads);
          return Closed, i + 1, requests, dropped, reloads;
        case ErrorsClosed =>
          reloads := ServeRest(reload, inputs[i + 1..], requests, dropped, reloads);
          return Closed, i + 1, requests, dropped, reloads;
        case Failure(e) =>
          if e.Some? {
            reloads := ServeRest(reload, inputs[i + 1..], requests, dropped, reloads);
            return Failed(e.value), i + 1, requests, dropped, reloads;
          }
        case Event(_, op) =>
          if RequestsReload(op) {
            requests := requests + 1;
            var sent := reload.Offer();
            if !sent {
              dropped := dropped + 1;
            }
          }
        case Serve =>
          var got := reload.Receive();
          if got {
            reloads := reloads + 1;
          }
      }
      i := i + 1;
    }
    return Exhausted, i, requests, dropped, reloads;
  }

  /** `for range reload` in `listen` once the watch loop has returned: it
      goes on receiving until the context is cancelled; filesystem events
      are no longer read. */
  method ServeRest(reload: Channel, rest: seq<Input>, requests: nat, dropped: nat, reloads0: nat) returns (reloads: nat)
    modifies reload
    ensures State(reload.pending, requests, dropped, reloads) == Drain(State(old(reload.pending), requests, dropped, reloads0), rest)
  {
    reloads := reloads0;
    var j := 0;
    while j < |rest| && !rest[j].Cancel?
      invariant 0 <= j <= |rest|
      invariant Drain(State(reload.pending, requests, dropped, reloads), rest[j..])
             == Drain(State(old(reload.pending), requests, dropped, reloads0), rest)
    {
      assert rest[j..][0] == rest[j] && rest[j..][1..] == rest[j + 1..];
      if rest[j].Serve? {
        var got := reload.Receive();
        if got {
          reloads := reloads + 1;
        }
      }
      j := j + 1;
    }
  }

  /** The loop stops at the first stopping input and reads nothing after
      it; it runs out only when there is none. */
  lemma {:induction false} StopsAtFirst(s: State, inputs: seq<Input>)
    ensures var (_, why, n) := Run(s, inputs);
      && n <= |inputs|
      && (why == Exhausted <==> n == |inputs| && forall k :: 0 <= k < |inputs| ==> Stopping(inputs[k]).None?)
      && (why != Exhausted ==> 0 < n && Stopping(inputs[n - 1]) == Some(why))
      && (forall k :: 0 <= k < n - 1 ==> Stopping(inputs[k]).None?)
    decreases |inputs|
  {
    if inputs != [] && Stopping(inputs[0]).None? {
      StopsAtFirst(Step(s, inputs[0]), inputs[1..]);
      var (_, why, n) := Run(s, inputs);
      forall k | 1 <= k < |inputs|
        ensures inputs[k] == inputs[1..][k - 1]
      {
      }
    }
  }

  /** Coalescing: every accepted request is either carried out or still
      pending, so the reloads never exceed the requests that were not
      dropped (plus one already pending at the start). */
  lemma {:induction false} Coalesces(s: State, inputs: seq<Input>)
    ensures var (t, _, _) := Run(s, inputs);
      && t.requests - s.requests >= t.dropped - s.dropped >= 0
      && t.reloads >= s.reloads
      && (t.reloads - s.reloads) + (if t.pending then 1 else 0)
         == (t.requests - s.requests) - (t.dropped - s.dropped) + (if s.pending then 1 else 0)
    decreases |inputs|
  {
    if inputs != [] {
      if Stopping(inputs[0]).None? {
        Coalesces(Step(s, inputs[0]), inputs[1..]);
      } else {
        DrainCoalesces(s, inputs[1..]);
      }
    }
  }

  /** The reload loop only carries out pending requests: it asks for and
      drops none, and each reload takes the pending one. */
  lemma {:induction false} DrainCoalesces(s: State, rest: seq<Input>)
    ensures var t := Drain(s, rest);
      && t.requests == s.requests && t.dropped == s.dropped && t.reloads >= s.reloads
      && (t.reloads - s.reloads) + (if t.pending then 1 else 0) == (if s.pending then 1 else 0)
    decreases |rest|
  {
    if rest != [] && !rest[0].Cancel? {
      DrainCoalesces(if rest[0].Serve? then Step(s, Serve) else s, rest[1..]);
    }
  }

  /** A request pending when the watch loop stops is still carried out by
      the reload loop's next receive, if the server is not shut down
      first; it is the only reload left. */
  lemma {:induction false} DrainServes(s: State, rest: seq<Input>, k: nat)
    requires s.pending && k < |rest| && rest[k] == Serve
    requires forall j :: 0 <= j < k ==> rest[j] != Serve && !rest[j].Cancel?
    ensures Drain(s, rest).reloads == s.reloads + 1 && !Drain(s, rest).pending
    decreases |rest|
  {
    if k == 0 {
      DrainCoalesces(Step(s, Serve), rest[1..]);
    } else {
      DrainServes(s, rest[1..], k - 1);
    }
  }

  /** No request is lost: after an event that asks for a reload, one stays
      pending until the reload loop receives it. */
  lemma {:induction false} RequestStaysPending(s: State, inputs: seq<Input>, k: nat)
    requires k < |inputs| && inputs[k].Event? && RequestsReload(inputs[k].op)
    requires forall j :: 0 <= j <= k ==> Stopping(inputs[j]).None?
    requires forall j :: k < j < |inputs| ==> inputs[j] != Serve
    ensures Run(s, inputs).0.pending
    decreases |inputs|
  {
    var t := Step(s, inputs[0]);
    assert Stopping(inputs[0]).None?;
    if k == 0 {
      PendingKept(t, inputs[1..]);
    } else {
      RequestStaysPending(t, inputs[1..], k - 1);
    }
  }

  /** Without a receive, a pending request stays pending. */
  lemma {:induction false} PendingKept(s: State, inputs: seq<Input>)
    requires s.pending
    requires forall j :: 0 <= j < |inputs| ==> inputs[j] != Serve
    ensures Run(s, inputs).0.pending
    decreases |inputs|
  {
    if inputs != [] {
      if Stopping(inputs[0]).None? {
        PendingKept(Step(s, inputs[0]), inputs[1..]);
      } else {
        DrainKeepsPending(s, inputs[1..]);
      }
    }
  }

  /** Without a receive, the reload loop leaves a pending request
      pending. */
  lemma {:induction false} DrainKeepsPending(s: State, rest: seq<Input>)
    requires s.pending
    requires forall j :: 0 <= j < |rest| ==> rest[j] != Serve
    ensures Drain(s, rest).pending
    decreases |rest|
  {
    if rest != [] && !rest[0].Cancel? {
      DrainKeepsPending(s, rest[1..]);
    }
  }
}
