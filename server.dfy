/**
 * The daemon's notification server (daemon/cmd/server/main.go): the
 * subscription registry, the fan-in of producer services into one sink
 * channel, and the stream session that drains the sink to a subscriber.
 *
 * Concurrency is not modelled. The goroutines that forward producer
 * messages into the sink are modelled by `Forward`, one producer at a
 * time; the order in which the sink yields their messages is an input
 * (`sinkItems`), as is the outcome of every `stream.Send` (`sendOk`).
 */
module DaemonServer {
  import opened Wrappers
  import opened Decimal

  const BulletJournalId: string := "bulletJournal"
  const FanInServiceName: string := "fanIn"
  const CleanerServiceName: string := "cleaner"
  const ReminderServiceName: string := "reminder"

  /** Identity of a Go channel: two services share a channel exactly when their ids are equal. */
  type ChannelId = nat

  /** The channels created at start-up for the three services. */
  const FanInChannel: ChannelId := 0
  const CleanerChannel: ChannelId := 1
  const ReminderChannel: ChannelId := 2

  /** A message a producer puts on its channel (`daemon.StreamingMessage`). */
  datatype StreamingMessage = StreamingMessage(serviceName: string, message: int)

  /** A named producer service and its channel (`daemon.Streaming`). */
  datatype Streaming = Streaming(serviceName: string, serviceChannel: ChannelId)

  /** The wire message sent to the subscriber (`types.StreamMessage`). */
  datatype StreamMessage = StreamMessage(id: string, message: string)

  datatype HealthCheckRequest = HealthCheckRequest
  datatype HealthCheckResponse = HealthCheckResponse

  /** Why a stream session stopped draining the sink. */
  datatype SessionEnd =
    | SinkClosed   // the sink channel was closed (the end of `sinkItems`)
    | NilReceived  // the sink yielded a nil message
    | SendFailed   // `stream.Send` returned an error
    | NoSink       // no "fanIn" service: the loop ranges over a nil channel and blocks forever
    | Panicked     // only in `DrainAsWritten`: the nil item is dereferenced

  /** What a stream session did: the messages it passed to `stream.Send`, in order, and why it stopped. */
  datatype Outcome = Outcome(sent: seq<StreamMessage>, end: SessionEnd)

  /** The health check always answers with an empty response and no error. */
  function HealthCheck(request: HealthCheckRequest): (r: Result<HealthCheckResponse, string>)
    ensures r.Ok?
  {
    Ok(HealthCheckResponse)
  }

  // ---------------------------------------------------------------------
  // Registry set up at start-up

  function InitialServices(): (services: seq<Streaming>)
    ensures SinkOf(services) == Some(FanInChannel)
    ensures Forwarders(services) == [Streaming(CleanerServiceName, CleanerChannel), Streaming(ReminderServiceName, ReminderChannel)]
  {
    var services := [Streaming(FanInServiceName, FanInChannel),
                     Streaming(CleanerServiceName, CleanerChannel),
                     Streaming(ReminderServiceName, ReminderChannel)];
    assert CleanerServiceName[0] != FanInServiceName[0] && ReminderServiceName[0] != FanInServiceName[0];
    assert services[..2][..1] == services[..1] && services[..1][..0] == [];
    assert services[..|services| - 1] == services[..2] && services[..2][..|services[..2]| - 1] == services[..1];
    assert SinkOf(services[..1]) == Some(FanInChannel);
    assert SinkOf(services[..2]) == SinkOf(services[..1]);
    assert Forwarders(services[..1]) == [];
    assert Forwarders(services[..2]) == [services[1]];
    services
  }

  /** The registry literal: only "bulletJournal" is registered, and it is idle. */
  function InitialSubscriptions(): (m: map<string, seq<Streaming>>)
    ensures m.Keys == {BulletJournalId}
    ensures SinkOf(m[BulletJournalId]) == Some(FanInChannel)
  {
    map[BulletJournalId := InitialServices()]
  }

  // ---------------------------------------------------------------------
  // Fan-in

  /** A forwarded message carries the name of the service it came from, whatever name it had before. */
  function Tag(serviceName: string, m: StreamingMessage): (r: StreamingMessage)
    ensures r.serviceName == serviceName && r.message == m.message
  {
    m.(serviceName := serviceName)
  }

  /** Tagging twice keeps only the last name. */
  lemma TagOverwrites(first: string, second: string, m: StreamingMessage)
    ensures Tag(second, Tag(first, m)) == Tag(second, m)
  {
  }

  /**
   * The channel the session drains: the loop over the service list assigns
   * `fanInChannel` at every service named "fanIn", so the last one wins;
   * with none it stays nil.
   */
  function SinkOf(services: seq<Streaming>): (c: Option<ChannelId>)
    ensures c.None? <==> forall i :: 0 <= i < |services| ==> services[i].serviceName != FanInServiceName
    ensures c.Some? ==> exists i :: 0 <= i < |services| && services[i] == Streaming(FanInServiceName, c.value)
                                    && forall j :: i < j < |services| ==> services[j].serviceName != FanInServiceName
    decreases |services|
  {
    if services == [] then None
    else
      var last := services[|services| - 1];
      if last.serviceName == FanInServiceName then Some(last.serviceChannel)
      else SinkOf(services[..|services| - 1])
  }

  /** The services a forwarding goroutine is started for, in list order: every one not named "fanIn". */
  function Forwarders(services: seq<Streaming>): (fs: seq<Streaming>)
    ensures forall s :: s in fs ==> s in services && s.serviceName != FanInServiceName
    ensures forall s :: s in services && s.serviceName != FanInServiceName ==> s in fs
    ensures |fs| <= |services|
    decreases |services|
  {
    if services == [] then []
    else
      var last := services[|services| - 1];
      Forwarders(services[..|services| - 1]) + (if last.serviceName == FanInServiceName then [] else [last])
  }

  /**
   * The loop over the service list (main.go:55-67): finds the sink channel
   * and starts one forwarder per other service.
   */
  method StartFanIn(services: seq<Streaming>) returns (fanIn: Option<ChannelId>, spawned: seq<Streaming>)
    ensures fanIn == SinkOf(services)
    ensures spawned == Forwarders(services)
  {
    fanIn, spawned := None, [];
    for i := 0 to |services|
      invariant fanIn == SinkOf(services[..i])
      invariant spawned == Forwarders(services[..i])
    {
      assert services[..i + 1][..i] == services[..i];
      var service := services[i];
      if service.serviceName == FanInServiceName {
        fanIn := Some(service.serviceChannel);
      } else {
        spawned := spawned + [service];
      }
    }
    assert services[..|services|] == services;
  }

  /**
   * One forwarding goroutine (main.go:59-65): every message read from the
   * producer's channel is put on the sink, in order, tagged with the
   * producer's name.
   */
  method Forward(service: Streaming, incoming: seq<StreamingMessage>) returns (toSink: seq<StreamingMessage>)
    ensures |toSink| == |incoming|
    ensures forall i :: 0 <= i < |incoming| ==> toSink[i] == Tag(service.serviceName, incoming[i])
  {
    toSink := [];
    for i := 0 to |incoming|
      invariant |toSink| == i
      invariant forall k :: 0 <= k < i ==> toSink[k] == Tag(service.serviceName, incoming[k])
    {
      toSink := toSink + [Tag(service.serviceName, incoming[i])];
    }
  }

  // ---------------------------------------------------------------------
  // Draining the sink

  /** The wire message for a cleaner item: id "cleaner", the project id in decimal. */
  function CleanerMessage(projectId: int): (m: StreamMessage)
    ensures m.id == CleanerServiceName
    ensures IsItoaImage(m.message) && DecodeInt(m.message) == projectId
  {
    DecodeItoa(projectId);
    StreamMessage(CleanerServiceName, Itoa(projectId))
  }

  predicate IsCleanerItem(item: Option<StreamingMessage>) {
    item.Some? && item.value.serviceName == CleanerServiceName
  }

  /** A sink item ends the session when it is nil, or when it is a cleaner item whose send fails. */
  predicate EndsSession(item: Option<StreamingMessage>, sendOk: bool) {
    item.None? || (IsCleanerItem(item) && !sendOk)
  }

  /** The sends a sequence of sink items asks for: one per cleaner item, in order. */
  function Sends(items: seq<Option<StreamingMessage>>): (out: seq<StreamMessage>)
    ensures |out| <= |items|
    ensures forall j :: 0 <= j < |out| ==> out[j].id == CleanerServiceName
    decreases |items|
  {
    if items == [] then [] else Sends(items[..|items| - 1]) + SendOf(items[|items| - 1])
  }

  /** The send one sink item asks for: the cleaner message, or nothing. */
  function SendOf(item: Option<StreamingMessage>): (out: seq<StreamMessage>)
    ensures out == [] <==> !IsCleanerItem(item)
    ensures IsCleanerItem(item) ==> out == [CleanerMessage(item.value.message)]
  {
    if IsCleanerItem(item) then [CleanerMessage(item.value.message)] else []
  }

  /** The positions of the cleaner items, in increasing order. */
  function CleanerPositions(items: seq<Option<StreamingMessage>>): (ps: seq<nat>)
    ensures forall a, b :: 0 <= a < b < |ps| ==> ps[a] < ps[b]
    ensures forall j :: 0 <= j < |ps| ==> ps[j] < |items| && IsCleanerItem(items[ps[j]])
    ensures forall i :: 0 <= i < |items| && IsCleanerItem(items[i]) ==> i in ps
    decreases |items|
  {
    if items == [] then []
    else
      var n := |items| - 1;
      CleanerPositions(items[..n]) + (if IsCleanerItem(items[n]) then [n] else [])
  }

  /**
   * Sends follow the sink's order and use every cleaner item exactly once:
   * the j-th send is the message for the j-th cleaner item.
   */
  lemma {:induction false} SendsFollowSinkOrder(items: seq<Option<StreamingMessage>>)
    ensures |Sends(items)| == |CleanerPositions(items)|
    ensures forall j :: 0 <= j < |Sends(items)| ==>
              Sends(items)[j] == CleanerMessage(items[CleanerPositions(items)[j]].value.message)
    decreases |items|
  {
    if items != [] {
      var n := |items| - 1;
      SendsFollowSinkOrder(items[..n]);
      forall j | 0 <= j < |CleanerPositions(items[..n])|
        ensures items[..n][CleanerPositions(items[..n])[j]] == items[CleanerPositions(items[..n])[j]]
      {
      }
    }
  }

  /** The sends of a concatenation are the sends of its parts. */
  lemma {:induction false} SendsAppend(a: seq<Option<StreamingMessage>>, b: seq<Option<StreamingMessage>>)
    ensures Sends(a + b) == Sends(a) + Sends(b)
    decreases |b|
  {
    if b == [] {
      assert a + b == a;
    } else {
      var n := |b| - 1;
      SendsAppend(a, b[..n]);
      SplitLast(a, b);
      assert Sends(a + b) == Sends(a + b[..n]) + SendOf(b[n]);
    }
  }

  /** Dropping the last element of a concatenation whose right part is non-empty. */
  lemma SplitLast<T>(a: seq<T>, b: seq<T>)
    requires b != []
    ensures (a + b)[..|a + b| - 1] == a + b[..|b| - 1]
    ensures (a + b)[|a + b| - 1] == b[|b| - 1]
  {
  }

  /** The index of the first item that ends the session, or `|items|` if none does. */
  function StopIndex(items: seq<Option<StreamingMessage>>, sendOk: seq<bool>): (k: nat)
    requires |sendOk| == |items|
    ensures k <= |items|
    ensures forall i :: 0 <= i < k ==> !EndsSession(items[i], sendOk[i])
    ensures k < |items| ==> EndsSession(items[k], sendOk[k])
    decreases |items|
  {
    if items == [] then 0
    else if EndsSession(items[0], sendOk[0]) then 0
    else 1 + StopIndex(items[1..], sendOk[1..])
  }

  /**
   * The drain loop (main.go:68-87) as a function of the sink items and of
   * the outcome `sendOk[i]` that sending item i would have.
   */
  function DrainSpec(items: seq<Option<StreamingMessage>>, sendOk: seq<bool>): Outcome
    requires |sendOk| == |items|
    decreases |items|
  {
    if items == [] then Outcome([], SinkClosed)
    else match items[0]
      case None => Outcome([], NilReceived)
      case Some(m) =>
        if m.serviceName == CleanerServiceName then
          if sendOk[0] then
            var rest := DrainSpec(items[1..], sendOk[1..]);
            Outcome([CleanerMessage(m.message)] + rest.sent, rest.end)
          else Outcome([CleanerMessage(m.message)], SendFailed)
        else DrainSpec(items[1..], sendOk[1..])
  }

  /**
   * What draining does, in terms of the first item that ends the session:
   * every cleaner item up to and including that one is sent, nothing after
   * it; the session ends on a nil item, on a failed send, or when the sink
   * runs out.
   */
  lemma {:induction false} DrainMeaning(items: seq<Option<StreamingMessage>>, sendOk: seq<bool>)
    requires |sendOk| == |items|
    ensures DrainSpec(items, sendOk).sent == Sends(items[..Consumed(items, sendOk)])
    ensures DrainSpec(items, sendOk).end == EndReason(items, StopIndex(items, sendOk))
    decreases |items|
  {
    if items != [] {
      var first := items[0];
      SendsSingle(first);
      DrainFirst(items, sendOk);
      if EndsSession(first, sendOk[0]) {
        assert StopIndex(items, sendOk) == 0;
        assert items[..Consumed(items, sendOk)] == [first];
      } else {
        var rest, okRest := items[1..], sendOk[1..];
        DrainMeaning(rest, okRest);
        var k', m := StopIndex(rest, okRest), Consumed(rest, okRest);
        assert StopIndex(items, sendOk) == k' + 1;
        PrefixAfterFirst(items, m);
        SendsAppend([first], rest[..m]);
        assert Consumed(items, sendOk) == m + 1;
        calc {
          Sends(items[..Consumed(items, sendOk)]);
          Sends(items[..m + 1]);
          Sends([first] + rest[..m]);
          Sends([first]) + Sends(rest[..m]);
          SendOf(first) + DrainSpec(rest, okRest).sent;
        }
        assert k' < |rest| ==> items[k' + 1] == rest[k'];
      }
    }
  }

  lemma PrefixAfterFirst<T>(s: seq<T>, m: nat)
    requires m < |s|
    ensures s[..m + 1] == [s[0]] + s[1..][..m]
  {
  }

  /** How many sink items the session takes: up to and including the first that ends it. */
  function Consumed(items: seq<Option<StreamingMessage>>, sendOk: seq<bool>): (n: nat)
    requires |sendOk| == |items|
    ensures n <= |items|
  {
    var k := StopIndex(items, sendOk);
    if k < |items| then k + 1 else k
  }

  /** Why draining stops when item k is the first that ends the session. */
  function EndReason(items: seq<Option<StreamingMessage>>, k: nat): SessionEnd
    requires k <= |items|
  {
    if k == |items| then SinkClosed else if items[k].None? then NilReceived else SendFailed
  }

  lemma SendsSingle(item: Option<StreamingMessage>)
    ensures Sends([item]) == SendOf(item)
  {
    assert [item][..0] == [];
  }

  /** One step of the drain loop on the first sink item. */
  lemma DrainFirst(items: seq<Option<StreamingMessage>>, sendOk: seq<bool>)
    requires |sendOk| == |items| && items != []
    ensures EndsSession(items[0], sendOk[0]) ==>
              DrainSpec(items, sendOk) == Outcome(SendOf(items[0]), if items[0].None? then NilReceived else SendFailed)
    ensures !EndsSession(items[0], sendOk[0]) ==>
              var rest := DrainSpec(items[1..], sendOk[1..]);
              DrainSpec(items, sendOk) == Outcome(SendOf(items[0]) + rest.sent, rest.end)
  {
  }

  /** Items of any other service are skipped: they send nothing and draining goes on. */
  lemma OtherServicesSkipped(m: StreamingMessage, ok: bool, items: seq<Option<StreamingMessage>>, sendOk: seq<bool>)
    requires m.serviceName != CleanerServiceName
    requires |sendOk| == |items|
    ensures DrainSpec([Some(m)] + items, [ok] + sendOk) == DrainSpec(items, sendOk)
  {
  }

  /** Nothing is sent after the first failed send or the first nil item. */
  lemma DrainStopsAtFirstEnd(items: seq<Option<StreamingMessage>>, sendOk: seq<bool>, k: nat)
    requires |sendOk| == |items|
    requires k < |items| && EndsSession(items[k], sendOk[k])
    ensures DrainSpec(items, sendOk) == DrainSpec(items[..k + 1], sendOk[..k + 1])
    ensures DrainSpec(items, sendOk).end != SinkClosed
  {
    var s := StopIndex(items, sendOk);
    assert s <= k;
    DrainMeaning(items, sendOk);
    DrainMeaning(items[..k + 1], sendOk[..k + 1]);
    assert StopIndex(items[..k + 1], sendOk[..k + 1]) == s by {
      StopIndexPrefix(items, sendOk, k + 1);
    }
    assert items[..k + 1][..s + 1] == items[..s + 1];
  }

  /** The first stop of a prefix that contains the first stop is the same position. */
  lemma StopIndexPrefix(items: seq<Option<StreamingMessage>>, sendOk: seq<bool>, n: nat)
    requires |sendOk| == |items| && n <= |items|
    requires StopIndex(items, sendOk) < n
    ensures StopIndex(items[..n], sendOk[..n]) == StopIndex(items, sendOk)
  {
  }

  /** The drain loop itself, with `break` where the Go loop breaks. */
  method Drain(items: seq<Option<StreamingMessage>>, sendOk: seq<bool>) returns (sent: seq<StreamMessage>, end: SessionEnd)
    requires |sendOk| == |items|
    ensures Outcome(sent, end) == DrainSpec(items, sendOk)
  {
    sent, end := [], SinkClosed;
    var i := 0;
    while i < |items|
      invariant 0 <= i <= |items|
      invariant DrainSpec(items, sendOk) ==
                var rest := DrainSpec(items[i..], sendOk[i..]); Outcome(sent + rest.sent, rest.end)
    {
      assert items[i..][1..] == items[i + 1..] && sendOk[i..][1..] == sendOk[i + 1..];
      var item := items[i];
      if item.None? {
        // The Go code logs item.ServiceName here, which dereferences the nil
        // pointer; the comment and the `break` say the session was meant to end.
        end := NilReceived;
        break;
      } else if item.value.serviceName == CleanerServiceName {
        var message := StreamMessage(CleanerServiceName, Itoa(item.value.message));
        sent := sent + [message];
        if !sendOk[i] {
          end := SendFailed;
          break;
        }
      }
      i := i + 1;
    }
  }

  /**
   * The drain loop as written (main.go:68-87). On a nil item the log call at
   * main.go:70 reads `service.ServiceName` through the nil pointer, so the
   * session panics before it reaches the `break`.
   */
  function DrainAsWritten(items: seq<Option<StreamingMessage>>, sendOk: seq<bool>): Outcome
    requires |sendOk| == |items|
    decreases |items|
  {
    if items == [] then Outcome([], SinkClosed)
    else match items[0]
      case None => Outcome([], Panicked)
      case Some(m) =>
        if m.serviceName == CleanerServiceName then
          if sendOk[0] then
            var rest := DrainAsWritten(items[1..], sendOk[1..]);
            Outcome([CleanerMessage(m.message)] + rest.sent, rest.end)
          else Outcome([CleanerMessage(m.message)], SendFailed)
        else DrainAsWritten(items[1..], sendOk[1..])
  }

  /**
   * The code as written sends the same messages as the model, but wherever
   * the model ends cleanly on a nil item the code panics instead. That
   * happens exactly when the first item that ends the session is nil, even
   * after earlier cleaner items were sent.
   */
  lemma {:induction false} DrainAsWrittenPanicsOnNil(items: seq<Option<StreamingMessage>>, sendOk: seq<bool>)
    requires |sendOk| == |items|
    ensures DrainAsWritten(items, sendOk).sent == DrainSpec(items, sendOk).sent
    ensures DrainAsWritten(items, sendOk).end ==
              if DrainSpec(items, sendOk).end == NilReceived then Panicked else DrainSpec(items, sendOk).end
    ensures DrainAsWritten(items, sendOk).end == Panicked <==>
              StopIndex(items, sendOk) < |items| && items[StopIndex(items, sendOk)].None?
    decreases |items|
  {
    DrainMeaning(items, sendOk);
    if items != [] && items[0].Some? {
      DrainAsWrittenPanicsOnNil(items[1..], sendOk[1..]);
    }
  }

  /** A cleaner item followed by a nil: as written, one message is sent and then the session panics. */
  lemma PanicAfterSend(projectId: int)
    ensures var items, sendOk := [Some(StreamingMessage(CleanerServiceName, projectId)), None], [true, true];
            && DrainAsWritten(items, sendOk) == Outcome([CleanerMessage(projectId)], Panicked)
            && DrainSpec(items, sendOk) == Outcome([CleanerMessage(projectId)], NilReceived)
  {
    var items, sendOk := [Some(StreamingMessage(CleanerServiceName, projectId)), None], [true, true];
    assert items[1..] == [None] && sendOk[1..] == [true];
  }

  /** A whole session on a claimed service list: without a sink nothing is ever received. */
  function Session(services: seq<Streaming>, items: seq<Option<StreamingMessage>>, sendOk: seq<bool>): Outcome
    requires |sendOk| == |items|
  {
    if SinkOf(services).None? then Outcome([], NoSink) else DrainSpec(items, sendOk)
  }

  // ---------------------------------------------------------------------
  // The server and its registry

  /** Moving an entry from the idle map to the held map keeps the union. */
  lemma ClaimKeepsEntries(idle: map<string, seq<Streaming>>, held: map<string, seq<Streaming>>, id: string)
    requires id in idle && idle.Keys !! held.Keys
    ensures (idle - {id}).Keys !! held[id := idle[id]].Keys
    ensures (idle - {id}) + held[id := idle[id]] == idle + held
  {
  }

  /** Moving the entry back restores both maps. */
  lemma ReleaseUndoesClaim(idle: map<string, seq<Streaming>>, held: map<string, seq<Streaming>>, id: string)
    requires id in idle && idle.Keys !! held.Keys
    ensures (idle - {id})[id := idle[id]] == idle
    ensures held[id := idle[id]] - {id} == held
  {
  }

  class Server {
    /** Idle subscriptions: present ids may start a session. */
    var subscriptions: map<string, seq<Streaming>>
    /** Entries claimed by a session and not given back (kept by that session's locals in Go). */
    ghost var held: map<string, seq<Streaming>>

    /** An id is idle or held, never both. */
    ghost predicate Valid()
      reads this
    {
      subscriptions.Keys !! held.Keys
    }

    /** Every entry ever registered, idle or held. */
    ghost function Entries(): map<string, seq<Streaming>>
      reads this
    {
      subscriptions + held
    }

    /** The server as `main` builds it (main.go:107-113). */
    constructor ()
      ensures Valid()
      ensures subscriptions == InitialSubscriptions() && held == map[]
    {
      subscriptions := InitialSubscriptions();
      held := map[];
    }

    /**
     * `SubscribeNotification`: claims an idle id, runs its session, and
     * gives the entry back only if a send failed. A request for an id that is
     * not idle (held by a session, or never registered) does nothing.
     */
    method Subscribe(id: string, sinkItems: seq<Option<StreamingMessage>>, sendOk: seq<bool>) returns (sent: seq<StreamMessage>)
      requires Valid()
      requires |sendOk| == |sinkItems|
      modifies this
      ensures Valid()
      ensures Entries() == old(Entries())
      ensures id !in old(subscriptions) ==> sent == [] && subscriptions == old(subscriptions) && held == old(held)
      ensures id in old(subscriptions) ==>
                var services := old(subscriptions)[id];
                var r := Session(services, sinkItems, sendOk);
                && sent == r.sent
                && (r.end == SendFailed ==> subscriptions == old(subscriptions) && held == old(held))
                && (r.end != SendFailed ==> subscriptions == old(subscriptions) - {id} && held == old(held)[id := services])
    {
      sent := [];
      if id in subscriptions {
        var services := subscriptions[id];
        ClaimKeepsEntries(subscriptions, held, id);
        subscriptions := subscriptions - {id};
        held := held[id := services];
        var fanIn, spawned := StartFanIn(services);
        if fanIn.None? {
          return;
        }
        var end;
        sent, end := Drain(sinkItems, sendOk);
        if end == SendFailed {
          ReleaseUndoesClaim(old(subscriptions), old(held), id);
          subscriptions := subscriptions[id := services];
          held := held - {id};
        }
      }
    }
  }

  /**
   * Two sessions of "bulletJournal" from the start-up registry: a session
   * that ends with the sink closed keeps the id claimed, so a second request
   * sends nothing; after a failed send the id is idle again and a new session
   * starts without replaying the message that failed.
   */
  method SubscriptionScenarios()
  {
    var cleaned := Some(StreamingMessage(CleanerServiceName, 42));
    var server := new Server();
    var sent := server.Subscribe(BulletJournalId, [cleaned], [true]);
    assert Itoa(42) == "42" by {
      assert NatToDecimal(4) == "4";
    }
    assert [cleaned][1..] == [] && [true][1..] == [];
    assert DrainSpec([], []) == Outcome([], SinkClosed);
    assert DrainSpec([cleaned], [true]) == Outcome([StreamMessage(CleanerServiceName, "42")], SinkClosed);
    assert Session(InitialServices(), [cleaned], [true]) == Outcome([StreamMessage(CleanerServiceName, "42")], SinkClosed);
    assert sent == [StreamMessage(CleanerServiceName, "42")];
    assert BulletJournalId !in server.subscriptions;
    sent := server.Subscribe(BulletJournalId, [cleaned], [true]);
    assert sent == [];

    var failing := Some(StreamingMessage(CleanerServiceName, 7));
    var other := new Server();
    sent := other.Subscribe(BulletJournalId, [failing], [false]);
    assert sent == [StreamMessage(CleanerServiceName, "7")];
    assert BulletJournalId in other.subscriptions;
    sent := other.Subscribe(BulletJournalId, [], []);
    assert sent == [];
    assert BulletJournalId !in other.subscriptions;
  }
}
