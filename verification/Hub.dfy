/** The hub that pushes snapshots to web clients: registration, broadcasts, closing. */
module Hub {
  import opened Folds
  import opened Options

  const CAPACITY: nat := 256

  /** A client's buffered channel of message numbers; with what was ever put in, what found
      it full, and what the client took out. */
  datatype Channel = Channel(buffer: seq<nat>, closed: bool, sent: seq<nat>, missed: seq<nat>, taken: seq<nat>)

  const OPEN := Channel([], false, [], [], [])

  function Offered(ch: Channel, message: nat): Channel {
    if |ch.buffer| < CAPACITY then ch.(buffer := ch.buffer + [message], sent := ch.sent + [message])
    else ch.(missed := ch.missed + [message])
  }

  /** What happens at the hub, as one client sees it. Messages are numbered by broadcast. */
  datatype Event = Register | Unregister | Broadcast | Take | Elsewhere

  /** One client and the hub: whether it is registered, how many messages were broadcast, how
      many of them before it was first registered, and whether the hub has crashed on it. */
  datatype View = View(registered: bool, channel: Channel, broadcasts: nat, since: Option<nat>, crashed: bool)

  const START := View(false, OPEN, 0, None, false)

  /** Putting into a closed channel, or closing it again, crashes the hub. */
  function Push(v: View, message: nat): View {
    if v.channel.closed then v.(crashed := true) else v.(channel := Offered(v.channel, message))
  }

  function Next(v: View, e: Event): View {
    if v.crashed then v
    else
      match e
      case Register =>
        var w := v.(registered := true, since := if v.since.None? then Some(v.broadcasts) else v.since);
        if v.broadcasts > 0 then Push(w, v.broadcasts - 1) else w
      case Unregister =>
        if !v.registered then v
        else if v.channel.closed then v.(crashed := true)
        else v.(registered := false, channel := v.channel.(closed := true))
      case Broadcast =>
        var w := v.(broadcasts := v.broadcasts + 1);
        if v.registered then Push(w, v.broadcasts) else w
      case Take =>
        if v.channel.buffer == [] then v
        else v.(channel := v.channel.(buffer := v.channel.buffer[1..], taken := v.channel.taken + [v.channel.buffer[0]]))
      case Elsewhere => v
  }

  function Run(events: seq<Event>): View {
    Fold(Next, START, events)
  }

  // ---- Crashes ----

  predicate Safe(v: View) {
    !v.crashed && (v.registered ==> !v.channel.closed)
  }

  /** The one step that leaves safety is registering a client whose channel is closed. */
  lemma SafeIff(v: View, e: Event)
    requires Safe(v)
    ensures Safe(Next(v, e)) <==> !(e.Register? && v.channel.closed)
  {}

  /** And once it is left, the next message or unregistration crashes the hub. */
  lemma UnsafeCrashes(v: View)
    requires !v.crashed && v.registered && v.channel.closed
    ensures Next(v, Broadcast).crashed && Next(v, Unregister).crashed
    ensures Next(v, Register).crashed <==> v.broadcasts > 0
  {}

  ghost predicate Entered(events: seq<Event>) {
    exists i :: 0 <= i < |events| && events[i] == Register
  }

  /** An unregistration was handled after a registration. */
  ghost predicate Left(events: seq<Event>) {
    exists j :: 0 <= j < |events| && events[j] == Unregister && Entered(events[..j])
  }

  /** And after those two another registration. */
  ghost predicate Reentered(events: seq<Event>) {
    exists k :: 0 <= k < |events| && events[k] == Register && Left(events[..k])
  }

  lemma PrefixSnoc(events: seq<Event>, e: Event)
    ensures forall i :: 0 <= i <= |events| ==> (events + [e])[..i] == events[..i]
    ensures events[..|events|] == events
    ensures forall i :: 0 <= i <= |events| ==> (events + [e])[i] == if i < |events| then events[i] else e
  {}

  lemma EnteredSnoc(events: seq<Event>, e: Event)
    ensures Entered(events + [e]) <==> Entered(events) || e == Register
  {
    PrefixSnoc(events, e);
    assert (events + [e])[|events|] == e && forall i :: 0 <= i < |events| ==> events[i] == (events + [e])[i];
  }

  lemma LeftSnoc(events: seq<Event>, e: Event)
    ensures Left(events + [e]) <==> Left(events) || (e == Unregister && Entered(events))
  {
    PrefixSnoc(events, e);
    assert (events + [e])[|events|] == e && forall i :: 0 <= i < |events| ==> events[i] == (events + [e])[i];
  }

  lemma ReenteredSnoc(events: seq<Event>, e: Event)
    ensures Reentered(events + [e]) <==> Reentered(events) || (e == Register && Left(events))
  {
    PrefixSnoc(events, e);
    assert (events + [e])[|events|] == e && forall i :: 0 <= i < |events| ==> events[i] == (events + [e])[i];
  }

  /** What a run comes to, as far as crashes go. */
  ghost predicate Outcome(v: View, entered: bool, left: bool, reentered: bool) {
    && (Safe(v) <==> !reentered)
    && (Safe(v) ==> v.channel.closed == left && (v.registered || v.channel.closed) == entered)
    && (!Safe(v) ==> v.crashed || (v.registered && v.channel.closed))
  }

  lemma OutcomeStep(v: View, e: Event, entered: bool, left: bool, reentered: bool)
    requires Outcome(v, entered, left, reentered)
    ensures Outcome(Next(v, e), entered || e == Register, left || (e == Unregister && entered), reentered || (e == Register && left))
  {}

  lemma {:induction false} RunOutcome(events: seq<Event>)
    ensures Outcome(Run(events), Entered(events), Left(events), Reentered(events))
  {
    if events != [] {
      var n := |events| - 1;
      RunOutcome(events[..n]);
      OutcomeStep(Run(events[..n]), events[n], Entered(events[..n]), Left(events[..n]), Reentered(events[..n]));
      assert events == events[..n] + [events[n]];
      EnteredSnoc(events[..n], events[n]);
      LeftSnoc(events[..n], events[n]);
      ReenteredSnoc(events[..n], events[n]);
    }
  }

  /** Over every run: the hub stays safe on a client exactly when the client is not registered
      once more after it was unregistered. */
  lemma SafeRunIff(events: seq<Event>)
    ensures Safe(Run(events)) <==> !Reentered(events)
  {
    RunOutcome(events);
  }

  // ---- Runs in which the client is registered at most once ----

  function Count(events: seq<Event>, e: Event): nat {
    if events == [] then 0 else Count(events[..|events| - 1], e) + if events[|events| - 1] == e then 1 else 0
  }

  predicate Increasing(s: seq<nat>) {
    forall i, j :: 0 <= i < j < |s| ==> s[i] < s[j]
  }

  /** What the client may have been sent: increasing numbers, from the last message before
      its registration on, in the order it takes them. */
  predicate SentOk(v: View) {
    var ch := v.channel;
    && Increasing(ch.sent) && ch.taken + ch.buffer == ch.sent && |ch.buffer| <= CAPACITY
    && (forall i :: 0 <= i < |ch.sent| ==> ch.sent[i] < v.broadcasts)
    && (v.since.None? ==> v == START.(broadcasts := v.broadcasts))
    && (v.since.Some? ==> v.since.value <= v.broadcasts && forall i :: 0 <= i < |ch.sent| ==> ch.sent[i] + 1 >= v.since.value)
  }

  lemma OfferedOk(v: View, message: nat)
    requires SentOk(v) && v.since.Some? && message + 1 >= v.since.value
    requires forall i :: 0 <= i < |v.channel.sent| ==> v.channel.sent[i] < message
    ensures SentOk(v.(channel := Offered(v.channel, message), broadcasts := if message < v.broadcasts then v.broadcasts else message + 1))
  {
    var ch := v.channel;
    assert ch.taken + (ch.buffer + [message]) == (ch.taken + ch.buffer) + [message];
  }

  lemma TakeOk(v: View)
    requires SentOk(v) && v.channel.buffer != []
    ensures SentOk(Next(v, Take))
  {
    var ch := v.channel;
    assert ch.taken + [ch.buffer[0]] + ch.buffer[1..] == ch.taken + ch.buffer;
  }

  lemma RegisterOk(v: View)
    requires SentOk(v) && Safe(v) && v.since.None?
    ensures SentOk(Next(v, Register))
  {
    var w := START.(broadcasts := v.broadcasts, registered := true, since := Some(v.broadcasts));
    assert SentOk(w);
    if v.broadcasts > 0 {
      OfferedOk(w, v.broadcasts - 1);
    }
  }

  lemma BroadcastOk(v: View)
    requires SentOk(v) && Safe(v)
    ensures SentOk(Next(v, Broadcast))
  {
    if v.registered {
      OfferedOk(v, v.broadcasts);
    }
  }

  lemma StepOk(v: View, e: Event)
    requires SentOk(v) && Safe(v) && (e.Register? ==> v.since.None?)
    ensures SentOk(Next(v, e))
  {
    match e
    case Register => RegisterOk(v);
    case Broadcast => BroadcastOk(v);
    case Take =>
      if v.channel.buffer != [] {
        TakeOk(v);
      }
    case _ =>
  }

  lemma {:induction false} CountTwo(events: seq<Event>, i: nat, k: nat, e: Event)
    requires i < k < |events| && events[i] == events[k] == e
    ensures Count(events, e) >= 2
  {
    var n := |events| - 1;
    if k < n {
      CountTwo(events[..n], i, k, e);
    } else {
      CountOne(events[..n], i, e);
    }
  }

  lemma {:induction false} CountOne(events: seq<Event>, i: nat, e: Event)
    requires i < |events| && events[i] == e
    ensures Count(events, e) >= 1
  {
    var n := |events| - 1;
    if i < n {
      CountOne(events[..n], i, e);
    }
  }

  lemma OnceOnly(events: seq<Event>)
    requires Count(events, Register) <= 1
    ensures !Reentered(events)
  {
    if k :| 0 <= k < |events| && events[k] == Register && Left(events[..k]) {
      var j :| 0 <= j < k && events[..k][j] == Unregister && Entered(events[..k][..j]);
      var i :| 0 <= i < j && events[..k][..j][i] == Register;
      assert events[i] == Register;
      CountTwo(events, i, k, Register);
    }
  }

  lemma {:induction false} NotYetRegistered(events: seq<Event>)
    requires Count(events, Register) == 0
    ensures Run(events).since == None
  {
    if events != [] {
      NotYetRegistered(events[..|events| - 1]);
    }
  }

  /** In any order of events that registers a client at most once, the hub never puts into
      its closed channel nor closes it twice; the client is sent strictly increasing
      numbers, none older than the last one before its registration, and takes them in that
      order. */
  lemma {:induction false} OnceIsSafe(events: seq<Event>)
    requires Count(events, Register) <= 1
    ensures Safe(Run(events)) && SentOk(Run(events))
  {
    OnceOnly(events);
    SafeRunIff(events);
    if events != [] {
      var n := |events| - 1;
      OnceIsSafe(events[..n]);
      if events[n].Register? {
        NotYetRegistered(events[..n]);
      }
      StepOk(Run(events[..n]), events[n]);
    }
  }

  /** So at most one message it is sent is from before its registration: the latest one. */
  lemma OneOldMessage(events: seq<Event>, i: nat)
    requires Count(events, Register) <= 1
    requires i < |Run(events).channel.sent| && Run(events).since.Some?
    requires Run(events).channel.sent[i] < Run(events).since.value
    ensures i == 0 && Run(events).channel.sent[i] == Run(events).since.value - 1
  {
    OnceIsSafe(events);
    FirstIsLeast(Run(events).channel.sent, i);
  }

  /** And it is sent that one: a client is greeted with the latest message, if there is any. */
  lemma {:induction false} GreetedWithLatest(events: seq<Event>)
    requires Count(events, Register) <= 1 && Run(events).since.Some? && Run(events).since.value > 0
    ensures Run(events).channel.sent != [] && Run(events).channel.sent[0] == Run(events).since.value - 1
  {
    var n := |events| - 1;
    OnceIsSafe(events[..n]);
    if events[n].Register? {
      NotYetRegistered(events[..n]);
    } else {
      GreetedWithLatest(events[..n]);
      SentGrows(Run(events[..n]), events[n]);
    }
  }

  lemma SentGrows(v: View, e: Event)
    ensures v.channel.sent <= Next(v, e).channel.sent
    ensures !e.Register? ==> Next(v, e).since == v.since
  {}

  lemma FirstIsLeast(s: seq<nat>, i: nat)
    requires Increasing(s) && i < |s|
    ensures s[0] + (if i > 0 then 1 else 0) <= s[i]
  {}

  /** A broadcast is missed exactly when 256 messages are waiting, and sent otherwise. */
  lemma MissedIff(v: View)
    requires SentOk(v) && Safe(v) && v.registered
    ensures var w := Next(v, Broadcast);
            if |v.channel.buffer| == 256
            then w.channel.missed == v.channel.missed + [v.broadcasts] && w.channel.sent == v.channel.sent
            else w.channel.missed == v.channel.missed && w.channel.sent == v.channel.sent + [v.broadcasts]
  {}

  /** Nothing is left out but what found the buffer full: the sent and the missed numbers
      are all the numbers since, each once. */
  predicate AllOffered(v: View) {
    v.since.Some? && v.registered ==>
      forall m :: v.since.value <= m < v.broadcasts ==> m in v.channel.sent || m in v.channel.missed
  }

  lemma {:induction false} OnlyFullBuffersMiss(events: seq<Event>)
    requires Count(events, Register) <= 1
    ensures AllOffered(Run(events))
    ensures forall i :: 0 <= i < |Run(events).channel.missed| ==> Run(events).channel.missed[i] !in Run(events).channel.sent
    ensures forall i :: 0 <= i < |Run(events).channel.missed| ==> Run(events).channel.missed[i] < Run(events).broadcasts
  {
    if events != [] {
      var n := |events| - 1;
      OnlyFullBuffersMiss(events[..n]);
      OnceIsSafe(events[..n]);
      if events[n].Register? {
        NotYetRegistered(events[..n]);
      }
    }
  }

  /** A client whose end is noticed before its registration is handled stays registered:
      of a single registration and a single unregistration, the second to be handled wins. */
  lemma {:induction false} LastOneWins(events: seq<Event>)
    requires Count(events, Register) == 1 && Count(events, Unregister) == 1
    ensures Run(events).registered <==> !Run(events).channel.closed
    ensures Run(events).registered <==> exists i :: 0 <= i < |events| && events[i] == Register && Count(events[..i], Unregister) == 1
  {
    var n := |events| - 1;
    OnceIsSafe(events[..n]);
    if events[n].Register? {
      NotYetRegistered(events[..n]);
      OnceIsSafe(events[..n]);
      assert events[n] == Register && Count(events[..n], Unregister) == 1;
    } else if events[n].Unregister? {
      RegisteredOnly(events[..n]);
      forall i | 0 <= i < |events| && events[i] == Register ensures Count(events[..i], Unregister) == 0 {
        CountMonotone(events[..n], i, Unregister);
        assert events[..i] == events[..n][..i];
      }
    } else {
      LastOneWins(events[..n]);
      forall i | 0 <= i < n ensures events[..i] == events[..n][..i] && events[i] == events[..n][i] {}
    }
  }

  lemma {:induction false} CountMonotone(events: seq<Event>, i: nat, e: Event)
    requires i <= |events|
    ensures Count(events[..i], e) <= Count(events, e)
  {
    if i < |events| {
      CountMonotone(events[..|events| - 1], i, e);
      assert events[..|events| - 1][..i] == events[..i];
    } else {
      assert events[..i] == events;
    }
  }

  lemma {:induction false} RegisteredOnly(events: seq<Event>)
    requires Count(events, Register) == 1 && Count(events, Unregister) == 0
    ensures Run(events).registered && !Run(events).channel.closed && !Run(events).crashed
  {
    var n := |events| - 1;
    OnceIsSafe(events);
    if events[n].Register? {
    } else {
      RegisteredOnly(events[..n]);
      OnceIsSafe(events[..n]);
    }
  }

  // ---- The hub itself ----

  class Client {
    var channel: Channel

    constructor ()
      ensures channel == OPEN
    {
      channel := OPEN;
    }

    /** A send that does not wait; on a closed channel it panics. */
    method TrySend(message: nat) returns (panicked: bool)
      modifies this
      ensures panicked == old(channel.closed)
      ensures channel == if panicked then old(channel) else Offered(old(channel), message)
    {
      panicked := channel.closed;
      if !panicked {
        if |channel.buffer| < CAPACITY {
          channel := channel.(buffer := channel.buffer + [message], sent := channel.sent + [message]);
        } else {
          channel := channel.(missed := channel.missed + [message]);
        }
      }
    }
  }

  class EventLoop {
    var clients: set<Client>
    var latestSnapshot: Option<nat>
    ghost var broadcasts: nat

    ghost predicate Valid()
      reads this
    {
      latestSnapshot == if broadcasts == 0 then None else Some(broadcasts - 1)
    }

    /** The hub as seen by a client that is, or is not, in its table. */
    ghost function Seen(c: Client): View
      reads this, c
    {
      View(c in clients, c.channel, broadcasts, None, false)
    }

    ghost predicate Agrees(v: View, c: Client, panicked: bool)
      reads this, c
    {
      v.registered == (c in clients) && v.channel == c.channel && v.broadcasts == broadcasts && v.crashed == panicked
    }

    constructor ()
      ensures Valid() && clients == {} && broadcasts == 0
    {
      clients, latestSnapshot, broadcasts := {}, None, 0;
    }

    method OnRegister(client: Client) returns (panicked: bool)
      requires Valid()
      modifies this, client
      ensures Valid() && Agrees(Next(old(Seen(client)), Register), client, panicked)
      ensures clients == old(clients) + {client}
    {
      clients := clients + {client};
      panicked := false;
      if latestSnapshot.Some? {
        panicked := client.TrySend(latestSnapshot.value);
      }
    }

    method OnUnregister(client: Client) returns (panicked: bool)
      requires Valid()
      modifies this, client
      ensures Valid()
      ensures panicked == (client in old(clients) && old(client.channel.closed))
      ensures !panicked ==> Agrees(Next(old(Seen(client)), Unregister), client, false)
      ensures clients == old(clients) - {client}
    {
      panicked := false;
      if client in clients {
        clients := clients - {client};
        panicked := client.channel.closed;
        if !panicked {
          client.channel := client.channel.(closed := true);
        }
      }
    }

    /** Every registered client is offered the message once, whatever the order; it panics
        exactly when one of them has a closed channel. */
    method OnBroadcast(message: nat) returns (panicked: bool)
      requires Valid() && message == broadcasts
      modifies this, clients
      ensures Valid() && clients == old(clients)
      ensures panicked <==> exists c :: c in clients && old(c.channel.closed)
      ensures !panicked ==> forall c :: c in clients ==> Agrees(Next(old(Seen(c)), Broadcast), c, false)
    {
      latestSnapshot := Some(message);
      broadcasts := broadcasts + 1;
      var rest := clients;
      while rest != {}
        invariant rest <= clients
        invariant forall c :: c in rest ==> c.channel == old(c.channel)
        invariant forall c :: c in clients && c !in rest ==>
                    !old(c.channel.closed) && c.channel == Offered(old(c.channel), message)
        modifies clients
      {
        var client :| client in rest;
        rest := rest - {client};
        panicked := client.TrySend(message);
        if panicked {
          return;
        }
      }
      panicked := false;
    }
  }
}
