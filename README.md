# BulletJournal daemon: notification subscriptions

A model of the notification server of the BulletJournal daemon
(`daemon/cmd/server/main.go`), with proofs about it. The server keeps a
registry `subscriptions` that maps a subscriber id to its list of services.
At start-up the only id is `"bulletJournal"`, with the services `fanIn`,
`cleaner` and `reminder`. An id that is present is idle.

`SubscribeNotification` works like this:

- It claims an idle id by deleting it from the registry.
- It uses the service named `fanIn` as the sink channel.
- It starts one forwarding goroutine for each other service. Each goroutine
  tags a message with its service's name and puts it on the sink.
- It drains the sink in order. A `cleaner` item becomes the stream message
  `{Id: "cleaner", Message: strconv.Itoa(projectId)}`. Items of any other
  service are skipped. When the sink closes, the session ends and the id
  stays claimed. A failed send puts the id back, mapped to the same service
  list, and ends the session.
- A nil item is meant to end the session with the id still claimed: the
  comment and the `break` at main.go:69-72 say so. As written, the log call
  at main.go:70 reads a field through the nil pointer, so the session panics
  before it reaches the `break` (see Findings). The model's `Drain` ends the
  session cleanly; `DrainAsWritten` records the panic.

Files:

- `wrappers.dfy`: `Option` and `Result`.
- `decimal.dfy`: module `Decimal`, Go's `strconv.Itoa` (`Itoa`) and an
  independent decoder. The lemmas prove the two are inverse bijections.
- `server.dfy`: module `DaemonServer`, with the message and service types,
  the start-up registry, the fan-in loop (`StartFanIn`), one forwarding
  goroutine (`Forward`), the drain loop (`Drain`, specified by `DrainSpec`)
  and class `Server`, whose method `Subscribe` is `SubscribeNotification`.

Modelling choices:

- The order in which the sink yields its items is an input, `sinkItems`.
  That order is produced by goroutines that run at the same time. `None`
  stands for a nil item, and the end of the sequence stands for the channel
  closing.
- The outcomes of `stream.Send` are an input too. `sendOk[i]` is the outcome
  of sending item `i`, and it is read only when item `i` is sent.
- Channels are identified by a number (`ChannelId`). Two services share a
  channel exactly when their numbers are equal.
- The Go loop puts the id back and then `break`s. Nothing follows the loop,
  so `Subscribe` calls `Drain` and puts the id back when the session ended
  with `SendFailed`.
- The ghost map `Server.held` records the entries that sessions have claimed
  and not given back. In Go these live in a session's local variable.
  `Subscribe` keeps `subscriptions + held` unchanged, so entries move between
  idle and claimed and are never lost.
- If a service list has no `fanIn` service, `fanInChannel` stays nil. A
  `for range` over a nil channel blocks forever. The model sends nothing and
  ends with `NoSink`, and the id stays claimed. If a list has several `fanIn`
  services, the last one is the sink, because the loop assigns
  `fanInChannel` each time.
- A request for an id that is already streaming, or that was never
  registered, is not rejected with an error: the handler logs it and
  returns nil (main.go:88-91). The model does nothing for such a request
  and sends nothing.

## Model

| member | source | states |
|---|---|---|
| `DaemonServer.HealthCheck` | daemon/cmd/server/main.go:40-44 | The health check always succeeds, with an empty response. |
| `DaemonServer.InitialServices` | daemon/cmd/server/main.go:107-109 | The start-up service list has `fanIn` as its sink, and `cleaner` then `reminder` as the forwarded services. |
| `DaemonServer.InitialSubscriptions` | daemon/cmd/server/main.go:110-113 | The start-up registry holds only `"bulletJournal"`, and its list has a sink. |
| `DaemonServer.Server.constructor` | daemon/cmd/server/main.go:110-113 | A new server's registry is the start-up registry, and no entry is claimed. |
| `DaemonServer.Server.Subscribe` | daemon/cmd/server/main.go:46-92 | An absent id changes nothing and sends nothing. A present id: the sends are the session's sends; after a failed send the registry is exactly as before; otherwise only that id is removed and every other entry is unchanged. Idle plus claimed entries stay the same. |
| `DaemonServer.ClaimKeepsEntries` | daemon/cmd/server/main.go:50-52 | Claiming moves one entry from idle to claimed without changing the union of the two maps. |
| `DaemonServer.ReleaseUndoesClaim` | daemon/cmd/server/main.go:76-80 | Putting the claimed list back under the same id restores both maps exactly. |
| `DaemonServer.SinkOf` | daemon/cmd/server/main.go:54-58 | There is a sink exactly when some service is named `fanIn`. The sink is the channel of the last such service. |
| `DaemonServer.Forwarders` | daemon/cmd/server/main.go:55-66 | The forwarded services are exactly the listed services not named `fanIn`, so the sink is never forwarded. |
| `DaemonServer.StartFanIn` | daemon/cmd/server/main.go:54-67 | The loop over the services returns the sink `SinkOf` and starts forwarders for exactly `Forwarders`. |
| `DaemonServer.Tag` | daemon/cmd/server/main.go:61 | A forwarded message carries its service's name and keeps its payload. |
| `DaemonServer.TagOverwrites` | daemon/cmd/server/main.go:61 | Any name set earlier is overwritten: tagging twice equals tagging once with the last name. |
| `DaemonServer.Forward` | daemon/cmd/server/main.go:59-65 | Every incoming message reaches the sink once, in order, tagged with the forwarding service's name. |
| `DaemonServer.CleanerMessage` | daemon/cmd/server/main.go:73-75 | A cleaner send has id `"cleaner"`, and its text decodes back to exactly the project id. |
| `DaemonServer.Sends` | daemon/cmd/server/main.go:73-86 | There are never more sends than sink items, and every send has id `"cleaner"`. |
| `DaemonServer.SendsFollowSinkOrder` | daemon/cmd/server/main.go:68-87 | The j-th send is the message for the j-th cleaner item of the sink. So only cleaner items ask for a send, each exactly once, in sink order. |
| `DaemonServer.StopIndex` | daemon/cmd/server/main.go:68-81 | Finds the first item that ends the session: a nil item, or a cleaner item whose send fails. |
| `DaemonServer.DrainMeaning` | daemon/cmd/server/main.go:68-87 | Draining sends the cleaner items up to and including the first item that ends the session, and nothing after it. It ends with `SinkClosed` when no item ends it, `NilReceived` on a nil item, and `SendFailed` on a failed send. |
| `DaemonServer.DrainStopsAtFirstEnd` | daemon/cmd/server/main.go:69-80 | Items after a nil item or a failed send have no effect, and such a session does not end as `SinkClosed`. |
| `DaemonServer.OtherServicesSkipped` | daemon/cmd/server/main.go:84-86 | An item of any service other than `cleaner` sends nothing and draining goes on. |
| `DaemonServer.Drain` | daemon/cmd/server/main.go:68-87 | The drain loop, with its `break`s, computes exactly `DrainSpec`. |
| `DaemonServer.DrainAsWrittenPanicsOnNil` | daemon/cmd/server/main.go:68-87 | For all inputs, the loop as written sends exactly what the model sends. It ends the same way, except that it panics wherever the model ends on a nil item. It panics exactly when the first item that ends the session is nil. |
| `DaemonServer.PanicAfterSend` | daemon/cmd/server/main.go:69-75 | A cleaner item followed by a nil: both send the one cleaner message; as written the session then panics, in the model it ends with `NilReceived`. |
| `Decimal.NatToDecimal` | daemon/cmd/server/main.go:74 | The digits of a natural number, with no leading zero. The first digit is `0` only for zero. |
| `Decimal.Itoa` | daemon/cmd/server/main.go:74 | `strconv.Itoa` output is well formed, and it starts with `-` exactly for negative numbers. |
| `Decimal.DecodeItoa` | daemon/cmd/server/main.go:74 | Decoding `Itoa(n)` gives back `n`. |
| `Decimal.ItoaDecode` | daemon/cmd/server/main.go:74 | Every well-formed decimal string is `Itoa` of its value, so `Itoa` is onto its image. |
| `Decimal.ItoaInjective` | daemon/cmd/server/main.go:74 | Different project ids give different message texts. |

## Findings

| source | as written | input that shows it | evidently intended | confidence | as-written member | corrected member |
|---|---|---|---|---|---|---|
| daemon/cmd/server/main.go:69-70 | After `service == nil` is found, the log call reads `service.ServiceName`, which dereferences the nil pointer and panics before the `break`. | The sink yields a nil message during a session, e.g. a cleaner item and then nil: one message is sent, then the session panics. | Log that the service is closed, end the session, and do not put the id back. | not executed; high (Go panics on a field read through a nil pointer) | `DaemonServer.DrainAsWrittenPanicsOnNil` | `DaemonServer.Drain` |

## Left out

- gRPC and HTTP server setup, the listener, gateway registration and the `log.Fatalf` paths (main.go:115-153). These are transport and I/O.
- Signal handling and the shutdown sequence, including the channel closes (main.go:104-105, 189-202). A closed sink is only "the end of `sinkItems`".
- Goroutines running at the same time, the channel capacity of 100 and blocking when a channel is full (main.go:59-65, 107-109). The interleaved sink order is an input. The forwarding goroutines of an ended session keep running in Go, and a later session starts more of them; the model does not track this.
- Concurrent calls of `SubscribeNotification`. The Go map is read and written without a lock. In the model each `Subscribe` runs to completion before the next one starts.
- Messages are passed by pointer in Go, and a forwarding goroutine overwrites `ServiceName` in place. The model passes messages as values, so aliasing is not captured.
- `DaemonServer.Forward`: takes non-nil messages only. A nil message on a producer channel would panic at main.go:61.
- The width of `daemon.StreamingMessage.Message`. Its declaration is not part of this model. It is taken to be an integer that `int(...)` does not change, so truncation or wrap-around in that conversion is not modelled.
- The return value of `SubscribeNotification`, which is always nil, and the request's other fields. Only the id is read.
- The job scheduler, `daemon.Cleaner` with its Postgres settings, `daemon.Job.Run` and time zones (main.go:155-187). These are calls into code that is not part of this model.
- Logging. It has no effect apart from the nil dereference under Findings.
- The frontend files (a React revision component and the hourly-repeat markup). They are UI code with no connection to the daemon.
