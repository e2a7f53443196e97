/**
  A bot's life as a sequence of steps: incoming messages, `waitResponse`
  calls and timer expiries. Over such traces, a pending wait is settled at
  most once, either by a reply or by its timeout, and traffic never changes
  the registries.
*/
module Session {
  import opened Wrappers
  import opened Messages
  import opened Tickets
  import opened Errors
  import opened TypedBot
  import opened Dispatcher

  datatype Step =
    | Deliver(msg: Message)
    | Await(msg: Message, timeout: Option<int>, resolver: Resolver)
    | Expire(ticket: Ticket)

  /** What a step produced: a route, an armed wait, or a fired timer. */
  datatype Outcome =
    | Routed(route: Route)
    | Armed(ticket: Ticket, timeoutMs: int)
    | Fired(rejected: Option<Rejection>)

  datatype Transition = Transition(bot: Bot, outcome: Outcome)

  datatype Trace = Trace(bot: Bot, outcomes: seq<Outcome>)

  function Apply(b: Bot, s: Step, commandOf: string -> string): Transition {
    match s
    case Deliver(msg) =>
      var d := ReceivedMessage(b, msg, commandOf);
      Transition(d.bot, Routed(d.route))
    case Await(msg, timeout, resolver) =>
      var w := WaitResponse(b, msg, timeout, resolver);
      Transition(w.bot, Armed(w.ticket, w.timeoutMs))
    case Expire(ticket) =>
      var e := Timeout(b, ticket);
      Transition(e.bot, Fired(e.rejected))
  }

  /** Runs the steps in order, one outcome per step. */
  function Run(b: Bot, steps: seq<Step>, commandOf: string -> string): Trace
    decreases |steps|
  {
    if steps == [] then Trace(b, [])
    else
      var t := Apply(b, steps[0], commandOf);
      var rest := Run(t.bot, steps[1..], commandOf);
      Trace(rest.bot, [t.outcome] + rest.outcomes)
  }

  /** The outcome settles the wait on `ticket`: a reply resolved it or its timer rejected it. */
  predicate Settles(o: Outcome, ticket: Ticket) {
    || (o.Routed? && o.route.Resolved? && o.route.ticket == ticket)
    || (o.Fired? && o.rejected.Some? && o.rejected.value.error == ResponseTimeout(ticket))
  }

  function Settlements(os: seq<Outcome>, ticket: Ticket): nat
    decreases |os|
  {
    if os == [] then 0
    else (if Settles(os[0], ticket) then 1 else 0) + Settlements(os[1..], ticket)
  }

  predicate Arms(s: Step, ticket: Ticket) {
    s.Await? && TicketFromMessage(s.msg) == ticket
  }

  function Waits(steps: seq<Step>, ticket: Ticket): nat
    decreases |steps|
  {
    if steps == [] then 0
    else (if Arms(steps[0], ticket) then 1 else 0) + Waits(steps[1..], ticket)
  }

  function Pending(b: Bot, ticket: Ticket): nat {
    if ticket in b.waiting then 1 else 0
  }

  /** One step settles a wait only by taking it out of the store, and only `waitResponse` puts one in. */
  lemma StepAccounting(b: Bot, s: Step, commandOf: string -> string, ticket: Ticket)
    ensures var t := Apply(b, s, commandOf);
      (if Settles(t.outcome, ticket) then 1 else 0) + Pending(t.bot, ticket)
        <= (if Arms(s, ticket) then 1 else 0) + Pending(b, ticket)
  {
  }

  /**
    Across any trace, settlements of a ticket plus a wait still pending at the
    end never exceed the waits registered for it plus one pending at the
    start: no wait is resolved twice, timed out twice, or both.
  */
  lemma {:induction false} SettlementsBoundedByWaits(b: Bot, steps: seq<Step>, commandOf: string -> string, ticket: Ticket)
    ensures var r := Run(b, steps, commandOf);
      Settlements(r.outcomes, ticket) + Pending(r.bot, ticket) <= Waits(steps, ticket) + Pending(b, ticket)
    decreases |steps|
  {
    if steps != [] {
      var t := Apply(b, steps[0], commandOf);
      var rest := Run(t.bot, steps[1..], commandOf);
      StepAccounting(b, steps[0], commandOf, ticket);
      SettlementsBoundedByWaits(t.bot, steps[1..], commandOf, ticket);
      assert ([t.outcome] + rest.outcomes)[1..] == rest.outcomes;
    }
  }

  /** A single `waitResponse` on a quiet conversation is settled at most once, however the trace continues. */
  lemma SingleWaitSettlesAtMostOnce(b: Bot, steps: seq<Step>, commandOf: string -> string, ticket: Ticket)
    requires ticket !in b.waiting
    requires Waits(steps, ticket) == 1
    ensures Settlements(Run(b, steps, commandOf).outcomes, ticket) <= 1
  {
    SettlementsBoundedByWaits(b, steps, commandOf, ticket);
  }

  /** Incoming messages, waits and timeouts never change the registered actions. */
  lemma {:induction false} TrafficKeepsRegistries(b: Bot, steps: seq<Step>, commandOf: string -> string)
    ensures var r := Run(b, steps, commandOf);
      && r.bot.commands == b.commands && r.bot.events == b.events
      && r.bot.missingAction == b.missingAction && r.bot.plainTextAction == b.plainTextAction
      && r.bot.responseTimeout == b.responseTimeout
    decreases |steps|
  {
    if steps != [] {
      var t := Apply(b, steps[0], commandOf);
      TrafficKeepsRegistries(t.bot, steps[1..], commandOf);
    }
  }
}
