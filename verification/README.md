# Proofs about wireproxy's tunnels

wireproxy runs SOCKS5, HTTP and SNI proxies and TCP and UDP forwarders over a userspace WireGuard
device. This project models its concurrent and its text-handling parts in Dafny and proves what they
promise. `dafny verify dfyconfig.toml` checks everything.

- **UDP session tables** (`UdpModel`, `UdpSafety`, `UdpTheorems`, `UdpStale`, `UdpForwarding`,
  `UdpDelivery`, `UdpTiming`, `UdpEviction`, `UdpProgress`, `UdpStopping`, `UdpRefinement`, `UdpProgram`,
  `UdpService`). `udp_proxy.go` and `udp_server_tunnel.go` as one
  transition system with a `Kind`: the two files share the reaper and the remove-if-current, and differ
  in how the reader finds its session and in the order of the deferred calls. A step is one critical
  section or one access made outside the mutex; everything the environment decides is in the action, so
  a theorem about `Run` holds for every schedule. `UdpProgram` is the imperative program (map of session
  objects, one reused buffer array, a sweep that deletes while iterating, one program counter per
  goroutine), proved to take exactly these steps; `UdpService` starts it and carries the main results over.
- **Shutdown** (`Shutdown`). Any number of Close calls, step by step, against a serve loop; two
  unrelated error domains.
- **Requests** (`IpcRequest`, `Text`, `Codec`, `Metrics`, `ClientBind`). The printed WireGuard request
  and a reference parser after the "Configuration Protocol" section of WireGuard's "Cross-platform
  Userspace Implementation"; the base64-to-hex key codec after sections 4 and 8 of RFC 4648; the
  redaction of `/metrics`; the connected bind.
- **SNI** (`Sni`): tee, buffer and multi-reader around a TLS handshake.
- **Decisions** (`Ping`, `Resolve`, `Routing`, `Credentials`); `Durations` and `Netip` hold what several
  parts share.

Where the code and its documentation disagree the model follows the code. `routine.go:83-84` promises
that Close is idempotent and safe to call from another goroutine. For the two UDP routines that holds
exactly when no two calls stand between the check of `done` and its close at once
(`Shutdown.ClosePanicsExactlyWhenCallsOverlap`): calls made one after another are fine
(`Shutdown.SerialCallsDoNotPanic`), overlapping ones can close the channel twice
(`Shutdown.OverlappingUdpCallsCanPanic`).

Assumptions, each visible in a signature: a UDP datagram is shorter than the 64 KiB buffer (its length
field has 16 bits); the source text of a datagram resolves to the address it was printed from; for the
timed results, the predicate `UdpTiming.Timely` (sweeps on the tick and at once, `done` open, goroutines
blocked in Read only, which returns by its deadline). `UdpProgress` proves that these timing assumptions
never stop time. Address parsing and pattern matching are arbitrary functions passed as arguments.

## Model

| member | source | states |
|---|---|---|
| UdpSafety.EveryRunKeepsInv | udp_proxy.go:64-134 | For every schedule of reader, reaper and handlers, in both files: the table, the channels, the connections and the program counters stay consistent |
| UdpSafety.TeardownKeepsInv | udp_server_tunnel.go:149-151 | Both orders of the deferred calls keep the invariant, stale handlers included |
| UdpTheorems.TableHoldsExactlyTheOpenSessions | udp_server_tunnel.go:65-146 | A session's channel is open exactly when the table holds it under its own key (the tunnel's one built session apart); at most one open session per source; no channel or connection closed twice |
| UdpTheorems.ListedSessionsAreConnected | udp_proxy.go:165-169 | A listed session has an open connection: always in the proxy, except between the two deferred calls in the tunnel |
| UdpDelivery.AFailedReadTearsDown | udp_server_tunnel.go:149-186 | From every reachable state a failing Read takes the tunnel through a state that lists a closed connection and the proxy through one with an open, unlisted connection; one step later both are torn down completely |
| UdpDelivery.AnyFailureTearsDown | udp_proxy.go:182-207 | Whichever call of the reply loop fails, nothing is sent and the deferred calls take the session down completely |
| UdpStale.StaleHandlersAreInvisible | udp_proxy.go:72-79 | From the moment a session is out of the table, leaving all its handler's steps out of any schedule changes nothing else: same table, reader, other sessions and their writes |
| UdpStale.StaleHandlerStep | udp_server_tunnel.go:65-76 | A stale handler's own step, its closeSession included, touches only its own session |
| UdpTheorems.OnlyItsHandlerClosesAConnection | udp_proxy.go:165-169 | A connection goes from open to closed only by its own handler's deferred call |
| UdpTheorems.OnlySweepsAndItsHandlerUnlist | udp_proxy.go:93-101 | Nothing but a sweep or the session's own handler takes it out of the table |
| UdpTheorems.ToldHandlerGetsCloser | udp_server_tunnel.go:154-188 | With its channel closed, each step of a handler lowers a rank that is 0 only at the end, if Read returns |
| UdpTheorems.ToldHandlerWindsDown | udp_proxy.go:172-207 | From the moment the channel closes, under any schedule: a bounded number of handler steps, at most one more Read started and one more datagram forwarded |
| UdpTheorems.ToldHandlerMovesNineTimesAtMost | udp_server_tunnel.go:149-188 | A handler told to stop changes its program point at most nine more times, in any schedule |
| UdpForwarding.ForwardingIsFaithful | udp_proxy.go:136-160 | For each source, what was written is an in-order subsequence of what was received, whole and unmodified despite the reused buffer, across evictions; each packet goes to at most one session |
| UdpForwarding.RepliesReachTheirSource | udp_server_tunnel.go:179-187 | Replies go only to the source that created the session, in the order read, each at most once |
| UdpDelivery.ADatagramLeftAloneIsForwarded | udp_server_tunnel.go:106-196 | One undisturbed turn of the read loop forwards the datagram whole exactly when the write is taken on an open connection (listed, or just dialled); the source then has its session, made or found |
| UdpDelivery.ADatagramLeftAloneIsWritten | udp_proxy.go:136-160 | The same source by source: one more datagram received, and one more written exactly then |
| UdpDelivery.AReplyLeftAloneIsSent | udp_proxy.go:172-207 | An undisturbed turn of a reply loop sends what it read to its own source, notes the activity and changes nothing else |
| UdpForwarding.TracedIsSubsequence | udp_proxy.go:148-156 | A write log whose entries name increasing received packets is, source by source, a subsequence of them |
| UdpForwarding.SubsequencePicksOut | udp_proxy.go:148-156 | A subsequence is what stands at some increasing places, each used once |
| UdpEviction.InactiveSessionIsEvicted | udp_proxy.go:82-103 | In every timely run that lasts, a session last active at L and not removed by its handler stays listed until one sweep at t with L+timeout <= t < L+timeout+10 s, stays out, and past t+5 s its connection is closed |
| UdpEviction.EvictionHappens | udp_server_tunnel.go:78-103 | The promise is not empty: from every timely state with the reader waiting, each listed session not about to note activity or tear down is left alone by some timely run up to any time past the window, and evicted in it |
| UdpEviction.AFreshSessionIsEvicted | udp_proxy.go:107-160 | From the start: one datagram makes a session and is forwarded, and some timely run then evicts it in its window |
| UdpTiming.EvictionIsTimely | udp_server_tunnel.go:89-102 | A listed session is never older than timeout+10 s; a step other than its handler's takes it out exactly if it is a sweep at an age of at least the timeout |
| UdpTiming.ConnectionsCloseInTime | udp_proxy.go:172-193 | More than 5 s after its channel was closed, a session's connection is closed and its handler has finished |
| UdpTiming.EveryTimelyRunKeepsTime | udp_server_tunnel.go:78-103 | The timed invariant of every timely run: ages against the last sweep, read deadlines against closing times |
| UdpProgress.EveryTimeIsReached | udp_server_tunnel.go:154-176 | From every state of a timely run some timely run reaches any later time, with nothing arriving if the reader is at rest; so the timing assumptions are never contradictory |
| UdpStopping.CloseLeavesSessionsAlone | udp_proxy.go:38-48 | After the loop has returned and the reaper has stopped, nothing is read, made or forwarded, and a session stays open and listed until its own handler takes a step |
| UdpRefinement.EveryRunRefines | udp_server_tunnel.go:124-146 | Every run of either file shows the table built by its trace of atomic get-or-create, touch, drop and expire operations |
| UdpRefinement.InsertRefines | udp_server_tunnel.go:144-146 | The tunnel's insert is the creating branch of the atomic operation: it never displaces a session |
| UdpRefinement.OnlyDeletionsBetweenLookupAndInsert | udp_server_tunnel.go:131-143 | Between the tunnel's two critical sections the table can only shrink |
| UdpProgram.Forwarder.Execute | udp_proxy.go:137-161 | The imperative program under a schedule ends in exactly the state of the transition system's run |
| UdpProgram.Forwarder.SweepPass | udp_proxy.go:92-101 | Deleting from the map while iterating, in any order, equals filtering it by age |
| UdpProgram.Forwarder.GetOrCreate | udp_proxy.go:107-134 | One critical section: note the activity, fail to dial, or create and insert |
| UdpProgram.Forwarder.LookUp | udp_server_tunnel.go:124-129 | First critical section of the tunnel |
| UdpProgram.Forwarder.InsertSession | udp_server_tunnel.go:144-149 | Second critical section of the tunnel and the go statement |
| UdpProgram.Forwarder.RemoveSession | udp_server_tunnel.go:65-76 | Close the channel and delete the entry only if the table still holds this session |
| UdpProgram.Forwarder.TearDown | udp_proxy.go:166-169 | The deferred calls in the order of each file |
| UdpProgram.SessionObject.LoopStep | udp_proxy.go:172-208 | One step of the reply loop |
| UdpSafety.ServeStartsInitial | udp_proxy.go:59-84 | Serve starts in the initial state of the theorems, its timeout that many seconds, the reaper running exactly if it is positive |
| UdpService.ServeUnder | udp_proxy.go:52-161 | A constructed program under any schedule: faithful forwarding, replies to their source, each map entry an open session under its own key, at most one open per source |
| UdpService.ServeIdle | udp_server_tunnel.go:51-196 | A constructed program under a timely schedule: a session idle since L is swept in [L + timeout, L + timeout + 10 s), is not in the map at the end, and 5 s later its connection is closed |
| Shutdown.ShutdownIsJudgedByIntent | routine.go:107-118 | For every interleaving: a failure caused by Close's own listener close ends Serve with nil whatever the error; a returning loop returns its fault exactly if its failure was judged before the mark and is not net.ErrClosed; UDP loops never fault and leave at the first failure judged after it |
| Shutdown.ServeJudges | http.go:181-197 | Every judgement of every run, the HTTP proxy's two stages included, and a returned fault unwraps to the listener's error |
| Shutdown.FirstFailureDecides | routine.go:535-549 | After any number of accepted connections the first failure settles it: nil, or at once the fault under the routine's own name, or, for a UDP loop, on to the next read |
| Shutdown.LastJudgementDecides | routine.go:447-461 | How Serve stands after any run is told by its last judgement, and without one it is still running |
| Shutdown.HttpServerEndsCleanlyOnNetClosed | http.go:181-197 | The HTTP server by itself ends in nil exactly if net.ErrClosed is somewhere in the chain of the error |
| Shutdown.MarkPrecedesClosing | udp_proxy.go:38-48 | Along every interleaving of Close steps the intent is recorded before the listener closes |
| Shutdown.ShutListenerEndsTheLoop | udp_server_tunnel.go:107-115 | With the listener closed by Close, the next turn of the loop is its last: no spinning |
| Shutdown.ErrorValueAloneMisjudges | routine.go:91-106 | For every interleaving in which Close shuts the listener and every error it then reports: Serve ends in nil, while judged by value alone it would only for net.ErrClosed |
| Shutdown.ClosePanicsExactlyWhenCallsOverlap | udp_proxy.go:40-46 | For every run: `done` has been closed twice, or the calls past its check must close it again, if and only if two calls stood past that check at once |
| Shutdown.OneReturnedCallSettlesAll | routine.go:83-85 | Once one call of Close has returned, the intent, `done` and the listener are closed for good, whatever other calls do, and the serve loop's next turn is its last |
| Shutdown.FourStepsReturn | routine.go:589-601 | A call of Close never waits for another: after at most four steps of its own it has returned |
| Shutdown.SerialCallsDoNotPanic | udp_server_tunnel.go:37-47 | Calls made one after another never close `done` twice |
| Shutdown.OverlappingUdpCallsCanPanic | udp_server_tunnel.go:39-45 | While `done` is open, any two calls that have not closed it yet, begun or not, can go on to close it twice |
| Shutdown.CloseReturnsTheListenersError | routine.go:593-601 | A call that has returned closed the listener in exactly one step, and returned an error exactly when the listener reported one there that is not net.ErrClosed |
| Shutdown.Routine.Serve | routine.go:535-549 | The accept and read loops compute exactly the outcome and judgements of the specification |
| Shutdown.Routine.AdvanceClose | routine.go:589-601 | One step of one Close call |
| IpcRequest.RequestRoundTrip | wireguard.go:26-61 | For every configuration with one-line fields the reference parser recovers key, port and every peer in order, an empty list reading back as the two catch-all prefixes |
| IpcRequest.EqualRequestsMeanEqualConfigs | wireguard.go:29-57 | Two requests are the same text exactly when the configurations agree up to that default |
| IpcRequest.EmptyListReadsBackAsCatchAll | wireguard.go:47-56 | Every peer reads back as configured, except that an empty list reads back as 0.0.0.0/0 and ::0/0 |
| IpcRequest.RenderedAsFormatted | wireguard.go:29-56 | The printed text is the program's own formats, line by line |
| IpcRequest.LexInvertsRender | wireguard.go:36-49 | Lines split back into the keys and values they were printed from |
| IpcRequest.CreateIPCRequest | wireguard.go:26-61 | The nested printing loops produce the rendering of the configuration's entries |
| Codec.KeyIsTranscribed | config.go:188-197 | A 32-byte key in base64 comes out as its 64 lower-case hex digits |
| Codec.AcceptedKeysAreReproduced | config.go:188-197 | Accepted inputs are exactly those that decode to 32 bytes, which the output reproduces on one line |
| Codec.DistinctKeysPrintDistinctly | wireguard.go:36-42 | Two accepted inputs print alike exactly when they stand for the same key |
| Codec.RoundTrip | config.go:189-192 | Decoding inverts encoding for every byte string |
| Codec.DecodedTextIsTheEncoding | config.go:189 | A text without line breaks that decodes is the encoding of what it decodes to, up to the bits padding leaves unused |
| Codec.BreaksAreSkipped | config.go:189 | A carriage return or newline anywhere in the text changes nothing |
| Codec.QuantumIsTheSameNumber | config.go:189 | Each group is one number, in base 256 as bytes and in base 64 as characters of the alphabet of RFC 4648, padded to four |
| Codec.EncodeByGroups | config.go:189 | Groups of three bytes are encoded apart |
| Codec.ValuesAreTheAlphabet | config.go:189 | The digits accepted are the 64 characters of the alphabet, each with its place as value |
| Codec.HexIsTwoDigitsAByte | config.go:196 | Each byte is two digits of 0123456789abcdef, the high one first |
| Text.IntTextIsShortest | wireguard.go:32-41 | Numbers print with a sign only if negative and without leading zeros |
| Metrics.RewriteRedacts | routine.go:634-648 | On key=value lines: same lines, keys and order; the values of private_key and preshared_key read REDACTED and all others stay |
| Metrics.LineIsRewrittenAlone | routine.go:635-647 | On any text each line is rewritten by itself; one without '=' stays as it is and loses its newline |
| Metrics.RewriteIsIdempotent | routine.go:641-643 | On such text rewriting twice is rewriting once |
| Metrics.RewriteDependsOnNoSecret | routine.go:641-647 | Two outputs are equal exactly when the inputs differ in secret values only |
| Metrics.Serve | routine.go:634-648 | The buffer loop computes the rewriting |
| ClientBind.PickedBindAcceptsItsEndpoint | wireguard.go:66-83 | Whenever the connected bind is picked, it accepts the endpoint line printed for that configuration |
| ClientBind.ConnectedBindIsPickedExactly | wireguard.go:66-83 | The connected bind is picked exactly when the printed request has one peer with an endpoint that parses to a valid address, which is then the bind's peer |
| ClientBind.EveryBindRun | clientbind/clientbind.go:53-113 | Over any interleaving of calls exactly one of the sockets opened is open while conn is set and none otherwise; each was dialled to the peer on a network that can; a receive function yields only datagrams of its own generation's socket |
| ClientBind.ClosedSocketsStayAsTheyWere | clientbind/clientbind.go:87-113 | A closed socket stays exactly as it was, whatever the Sends begun before still try to write |
| ClientBind.AGenerationWorks | clientbind/clientbind.go:53-113 | A closed bind opens again, receives and sends on the new socket only, and closes it |
| ClientBind.ClientOnlyBind.Execute | clientbind/clientbind.go:53-113 | The object under any interleaving of calls ends in exactly the state of the bind's run, Sends split at the lock included |
| ClientBind.ClientOnlyBind.ReceiveFrom | clientbind/clientbind.go:74-82 | The oldest datagram of its own socket, nothing yet, or, exactly when that socket is no longer the bind's, an error |
| ClientBind.ClientOnlyBind.WriteAll | clientbind/clientbind.go:94-99 | Outside the lock: buffers are written in order up to the first failure, none on a socket closed meanwhile |
| ClientBind.ClientOnlyBind.SendAll | clientbind/clientbind.go:87-100 | Undisturbed: written in order up to the first failure, and the error says whether all were |
| ClientBind.ClientOnlyBind.OpenSocket | clientbind/clientbind.go:53-83 | Refuses a second Open, hands out a receive function on the new socket, dialled to the peer on a network that takes its address: udp4 for IPv4 and 4-in-6, udp6 for other IPv6 |
| Sni.PeekClientHello | sni.go:29-58 | Whatever the handshake reads, and however the stream is chunked, it sees the client's bytes in order and the wrapped connection reads the stream from its first byte; nothing is written to the client |
| Sni.WrappedConn.Read | sni.go:46-49 | One read of the multi-reader takes exactly the next bytes of the buffer, then of the connection, and ends as that does |
| Sni.Copy | routine.go:381 | The copy comes to its specification: a prefix, one byte a turn while all goes well, and all of the stream once turns enough have gone well |
| Sni.BadTurnBreaks | routine.go:381-384 | A turn that is reached breaks the copy exactly if its read fails, the peeked bytes being used up, or its write is short; what it took is delivered |
| Sni.GoodTurnsDeliver | routine.go:381 | While reads and writes go well at least a byte is delivered each turn, and with turns enough the copy finishes with everything |
| Sni.ConnForward | routine.go:377-384 | The same of the forward, and it closes both ends exactly when its copy has ended, however it ended |
| Sni.SniProxyForward | sni.go:61-89 | From a fresh connection: which failure answers what, the target (bracketed only for a name with a colon), and a transparent copy of the client's own stream to that backend |
| Sni.SniServe | sni.go:84-89 | Afterwards the client is open exactly while a copy to its backend is still running, the backend with it; the copy is transparent, and the peek has sent nothing |
| Ping.PingRecord.Ready | routine.go:614-622 | With the clock read for each record: after a 200 every address had answered within interval+2 s when the walk began; after a 503 with all answered one was silent for more than interval+1 s by its end |
| Ping.PingRecord.Deliver | routine.go:731-733 | Each record ends up holding its address's latest answer |
| Ping.PingRecord.ReadyAfterRounds | routine.go:740-752 | With rounds an interval apart and answers within min(1 s, interval), an instantaneous walk says 200 at every time after the first complete round |
| Ping.AnswersInTimeStayFresh | routine.go:617-621 | The arithmetic of that claim, whole-second truncation included |
| Resolve.ChoiceIsPreferred | routine.go:136-177 | For every list and shuffle: a parsed member, of the preferred family whenever one exists, an error exactly when none parses |
| Resolve.OtherFamilyIsUsedInstead | routine.go:165-172 | Without the preferred family the other is used |
| Resolve.OtherStrategiesFail | routine.go:165-174 | Any other strategy fails for every list |
| Resolve.AnyOfTheFamilyIsReachable | routine.go:156-161 | Any member of the family in use is chosen by some shuffle |
| Resolve.ResolveAddr | routine.go:142-176 | The appending, shuffling and concatenating loops compute that choice |
| Resolve.Shuffle | routine.go:156-161 | The in-place shuffle equals its specification |
| Resolve.SettleStrategy | wireguard.go:137-154 | "auto" becomes ipv4 exactly when there are device addresses and all are IPv4, ipv6 otherwise |
| Routing.HostSurvivesExactlyWithoutBrackets | sni.go:79-80 | Joining a host with a port and taking the host back returns it exactly when it has no bracket |
| Routing.PathsAgree | routine.go:230-254 | SNI, HTTP with or without a port, and SOCKS by name or by address all decide as on the bare name; the HTTP address keeps its port, or gets the default one |
| Routing.DialServerName | sni.go:79-80 | The SNI path decides as on the bare name |
| Routing.ShouldTunnel | router.go:28-39 | True exactly when the list is empty or some pattern matches the normalised name |
| Routing.DecisionIgnoresCaseAndOneDot | router.go:32 | A name in small letters without a dot at its end is matched as it is, and so are its spellings in any case and with one dot more |
| Routing.DecisionIgnoresCase | router.go:32 | Any two names that differ in letter case only are decided alike |
| Routing.OneDotOnly | router.go:32 | Of two dots at the end one is taken off and one is matched |
| Routing.DecisionGrowsWithPatterns | router.go:29-38 | Some list with more patterns takes a name away if and only if the list was empty |
| Routing.JoinedListsTunnelTheUnion | router.go:33-37 | Joining two non-empty lists tunnels exactly the names either tunnels |
| Routing.JoinThenSplit | router.go:57-63 | Splitting inverts joining for bracket-free hosts |
| Routing.SplitsExactlyHostPorts | router.go:57-63 | An address splits exactly if it is host:port or [host]:port with nothing ambiguous in either, and then into these |
| Routing.HostIsThatOfTheForm | router.go:57-63 | The host of an address is that of the form, or else the whole text |
| Credentials.HeaderAcceptedExactly | http.go:29-52 | For a colon-free user and any password the header of section 2 of RFC 7617 is accepted exactly when both are the configured ones |
| Credentials.AcceptedExactly | routine.go:369-373 | Over all headers: accepted exactly when the credentials decode to the configured pair and the configured user has no colon |
| Credentials.RefusalTellsWhy | http.go:38-51 | Which refusal answers text that is not base64, credentials without a colon, and other credentials |
| Credentials.OnlyConfiguredProxiesAsk | http.go:29-36 | Everything is accepted if no credentials are configured; otherwise a missing header is refused as such |
| Credentials.SchemeIsOptional | http.go:38 | The header means the same with the scheme's name and without |
| Credentials.ColonInUserNameLocksOut | http.go:44-51 | A configured user name with a colon can never log in |

## Left out

- Sessions after Close: the code leaves them and their handlers running until they end by themselves (`UdpStopping.CloseLeavesSessionsAlone`), so no teardown is claimed.
- Close before Bind: a typed nil listener makes it an error in the UDP proxy; Bind itself is only its resulting state.
- Sockets, the WireGuard device, netstack, DNS, TLS internals and regular expressions: nondeterministic answers or function arguments.
- The SOCKS5 library: its Serve is taken to return the error Accept returned.
- UdpModel.Step: the go statement after the tunnel's insert is part of the insert, which only allows more interleavings; ResolveUDPAddr of a printed source is taken to give that source back.
- IpcRequest.CreateIPCRequest: addresses and prefixes are the texts their String methods print; integers are unbounded.
- IpcRequest.RequestRoundTrip: the reference parser knows the keys this program prints and no others.
- Metrics.RewriteRedacts: text with a line that lacks '=' is excluded, because the code drops that line's newline.
- Ping.PingRecord.Ready: durations are unbounded, so an interval large enough to overflow time.Duration is not modelled; the code walks the records without a lock, here they stand still during one walk.
- Routing.DecisionIgnoresCase: letter case is that of ASCII.
- Sni.ConnForward: the opposite direction, which writes to the client only after the peek and may close both ends first, is not modelled.
- The HTTP proxy's request forwarding: it reads through a buffered reader and copies from the raw connection, so transparency is not claimed.
- INI parsing, the command line, logging, ICMP wire formats: library plumbing with easy facts.
