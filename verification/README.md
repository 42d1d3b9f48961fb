# gitea-pages: verified protocols and codecs

gitea-pages serves static sites and script handlers out of Gitea repositories.  This project models
the stateful protocols and the text codecs of the server in Dafny and proves what they promise.

| file | what it models |
|---|---|
| `RuntimeTasks.dfy` | the closing handshake of a script runtime |
| `EventQueue.dfy`, `EventQueueRuns.dfy` | the bounded event queue behind `event.load`: the stream and its invariants; what loads see of it over whole runs |
| `UpdateHub.dfy` | the watcher groups that are killed when a new commit is published |
| `AliasStore.dfy`, `MetaFlight.dfy`, `AliasClaims.dfy` | domain aliases in the shared key-value store; the single-flight of metadata refreshes that keeps two `Bind`s of one repository apart; when a listed domain points to its repository |
| `ResponseStream.dfy` | the streamed response: buffer before the start, rendezvous after it |
| `ServerSentEvents.dfy` | the event stream encoder against the parser of the WHATWG HTML standard |
| `ProviderCache.dfy`, `ProviderCacheRuns.dfy` | the cache in front of the backend, its keys and its two semaphores |
| `Addresses.dfy` | IP prefixes as numbers and how trusted and denied prefixes are normalised |
| `HeaderText.dfy`, `Forwarding.dfy`, `ForwardedRoundTrip.dfy`, `ForwardedFor.dfy`, `ForwardedChain.dfy` | the forwarding headers: printer, quote-aware splitter, parsers, trust scan; one header and whole chains of them read back |
| `BodyStream.dfy` | readable streams, the limited reader and the body consumers |
| `Wrappers.dfy`, `Strings.dfy` | optional values; the first occurrence of a character |
| `FilterChain.dfy`, `FilterPages.dfy` | the filter call stack, the filter list of a page, the built-in filters |

## How the model is built

Objects of the source are classes with the source's fields; each method is one critical section or one
sequential call, and its contract equates the new state with a function of the old one or states what the
source promises about it.  Protocols with several goroutines are also transition systems over the same
functions: an action is one critical section, one atomic operation or one channel operation, `IsRun`
says what a run is, and the theorems hold in every state of every run.  Text and byte codecs are functions
on `string`; loops of the source that compute them are methods with loop invariants.

What the theorems assume about the outside:

- request ids are unique (`pkg/server.go:247-248` draws a UUID);
- key-value operations succeed in `MetaFlight` and `AliasStore`;
- a backend is a function of owner, repository, commit and path; it may also fail;
- `netip` parses what it prints, and prints IPv6 with two colons or more (`Forwarding.Faithful`); directory entries survive their JSON form
  (`ProviderCache.Faithful`);
- a reader makes progress: it may return fewer bytes than asked for, or none, but not for ever;
- glob patterns, the alias check, the set of enabled filters and the site's files are arbitrary functions.

## What the proofs found

- An event dropped from a full queue does not end delivery at once: a later event can still be stored and
  delivered.  What loads received is a prefix of what was pushed, value by value, if and only if no more values
  were handed out than had been pushed before the first drop (`EventQueueRuns.PrefixDeliveredIff`);
  `EventQueueRuns.DeliveryCanSkip` is a run beyond that.
- Two `Bind`s of the same repository must not overlap (`AliasStore.OverlappingBindsLeakAlias`); the
  single-flight table is what keeps aliases listed (`MetaFlight.EveryAliasAccountedFor`).
- A domain that a repository lists need not point to it.  If two repositories claim it, the later Bind takes the
  alias, and a Bind that drops the domain deletes the alias whoever it points to
  (`AliasClaims.LaterBindWins`, `AliasClaims.DroppedAliasIsGone`).  Listed domains point to their repository in
  all runs if and only if no two repositories claim the same host name (`AliasClaims.ConsistentIffExclusive`).
- A response other than 200 that carries a Content-Length within the limit is cached and replayed with
  status 200 (`ProviderCacheRuns.BadStatusReplayed`); replay is faithful exactly for 200
  (`ProviderCache.ReplayIsFaithfulIff`), and the cache is transparent in all runs exactly for backends whose
  cacheable responses have it (`ProviderCacheRuns.AgreesIffReplayable`).
- Closing a slot-carrying body twice gives away a slot that someone else holds; the backend semaphore is
  exact if and only if that never happens (`ProviderCacheRuns.SlotsConserved`).  For every capacity one repeated
  close lets one call too many to the backend (`ProviderCacheRuns.DoubleCloseOverfills`).
- A host with a quote or a backslash can come back changed from its own Forwarded header, because each of
  the two splits unescapes once; `ForwardedRoundTrip.RoundTrip` gives the exact condition on the host.
- Text in front of a Forwarded line changes nothing once the line names an untrusted address, if that text
  closes its quotes (`ForwardedChain.FrontTextIgnored`); one open quote hides every address behind it
  (`ForwardedChain.OpenQuoteHides`).  Separate lines never interfere (`ForwardedChain.FrontLinesIgnored`).
- A trusted or denied IPv6 prefix shorter than 96 bits that covers the IPv4-mapped block does not decide
  mapped addresses, which are unmapped first (`Addresses.NormalizationFaithfulIff`); `::/0` is one
  (`Addresses.WholeSpaceRefusesMapped`).
- A last chunk that arrives together with EOF is withheld when closing the reader fails, and the stream still
  reports its end afterwards (`BodyStream.LastChunkWithheld`); this is the only way in which a stream at its
  end has not delivered everything (`BodyStream.EndMeansAll`).
- The default block filters of a page have no code and cannot be made, so a request for `.git/**` or
  `.pages.yaml` ends with a missing page before any filter is called, the 404 page included
  (`FilterPages.BlockedPathStops`).

## Model

| member | source | states |
|---|---|---|
| RuntimeTasks.RuntimeState.StartTask | pkg/filters/goja/runtime_state.go:20-30 | a task is accepted exactly if closing is not set, also when closing begins between the increment and the second load; the counter rises exactly by the accepted tasks |
| RuntimeTasks.CounterIsHolders | pkg/filters/goja/runtime_state.go:20-37 | under every interleaving the counter is the number of callers between their increment and their decrement |
| RuntimeTasks.ZeroAfterClosingIsFinal | pkg/filters/goja/runtime_state.go:20-77 | once closing is set and the counter is seen at zero, no accepted task runs then or at any later step, and every later recheck backs out |
| RuntimeTasks.CounterRisesAgain | pkg/filters/goja/runtime_state.go:20-30 | the counter itself may leave zero again for a racing caller that then backs out |
| RuntimeTasks.AcceptedIff | pkg/filters/goja/runtime_state.go:20-30 | under every interleaving a task is accepted exactly if the flag is not set at the second load |
| RuntimeTasks.TaskRuns | pkg/filters/goja/runtime_state.go:20-37 | in every open state any idle caller can run a task and finish it, and the counter is back |
| EventQueue.EventStream.Push | pkg/filters/goja/host_globals.go:359-377 | whole new state, field by field: ignored when closed, handed to the longest waiting load, lost with the latch set exactly when as many values as the limit are pending, stored last otherwise |
| EventQueue.EventStream.AwaitSection | pkg/filters/goja/host_globals.go:412-435 | whole new state and decision of a load, field by field: oldest pending value, overflow report, closing error, or the end of the waiter list |
| EventQueue.EventStream.Finish | pkg/filters/goja/host_globals.go:385-403 | the first finish closes the stream with its error, empties both sides and returns exactly the loads to fail; a later one changes nothing |
| EventQueue.EventStream.Withdraw | pkg/filters/goja/host_globals.go:436-447 | removes the first occurrence of the load and nothing else |
| EventQueue.FifoUntilDropOrClose | pkg/filters/goja/host_globals.go:359-435 | for every limit of at least 1 and every run: on an open stream, the values handed out followed by those pending equal the values pushed if and only if nothing was dropped; after a close without a drop, those handed out are a prefix |
| EventQueue.OneSided | pkg/filters/goja/host_globals.go:359-435 | in every run values are pending or loads are waiting, never both; pending never exceeds the limit; a closed stream holds neither |
| EventQueueRuns.PrefixDeliveredIff | pkg/filters/goja/host_globals.go:359-435 | in every run, open or closed: loads received the pushed values one by one from the first, with none missing, if and only if no more values were handed out than had been pushed before the first drop |
| EventQueueRuns.PrefixTextIff | pkg/filters/goja/host_globals.go:359-435 | the same for the texts: within the condition a prefix, and beyond it not, if no text was pushed twice |
| EventQueueRuns.PushDropsIffFull | pkg/filters/goja/host_globals.go:359-377 | in every run a push to an open stream loses its value if and only if no load waits and exactly the limit of values is pending; otherwise the value goes to the longest waiting load or stands last |
| EventQueueRuns.FirstDropIff | pkg/filters/goja/host_globals.go:372-376 | by counting: before any drop, a push drops its value if and only if the values pushed exceed the values handed out by exactly the limit |
| EventQueueRuns.OnlyPushDrops | pkg/filters/goja/host_globals.go:359-377 | nothing but such a push causes the first drop |
| EventQueueRuns.NextPushIsHanded | pkg/filters/goja/host_globals.go:365-435 | from every state with an empty open stream a load can wait and receive the value of the next push |
| EventQueue.HandedInOrderOnce | pkg/filters/goja/host_globals.go:359-435 | in every run, also after a drop, the values that loads received stand at increasing positions of the values pushed, and no load received two |
| EventQueueRuns.ChannelGotItsValue | pkg/filters/goja/host_globals.go:365-370 | a waiter's channel that was answered with a value got the value handed to that load |
| EventQueue.OfferedArePushed | pkg/filters/goja/host_globals.go:359-377 | the values these statements speak of are exactly those of the pushes that found the stream open |
| EventQueueRuns.WaitersInOrder | pkg/filters/goja/host_globals.go:365-370 | as long as an earlier load waits, a later one waits behind it or was withdrawn |
| EventQueueRuns.NewcomersLast | pkg/filters/goja/host_globals.go:432-435 | in every run the waiter list grows only at its end, by a load started just then |
| EventQueueRuns.NoLoadWaitsPastGap | pkg/filters/goja/host_globals.go:412-435 | after a drop nothing waits and no load is enqueued; the first load that finds nothing pending reports the overflow, and its next section closes the stream |
| EventQueueRuns.OneResultPerChannel | pkg/filters/goja/host_globals.go:359-447 | a channel that has its result, or was withdrawn, stays so for ever |
| EventQueueRuns.WithdrawnOnlyByRefusal | pkg/filters/goja/host_globals.go:436-447 | in every run a channel is withdrawn only by the section after its own load's refused task |
| EventQueueRuns.RefusedLoadLeaves | pkg/filters/goja/host_globals.go:436-447 | a load whose task is refused is out of the waiter list, and withdrawn unless its result is already on its way |
| EventQueueRuns.FirstErrorStands | pkg/filters/goja/host_globals.go:385-431 | in every run the first cancellation or overflow report decides the error of every load that fails, then and later |
| EventQueueRuns.ClosedStreamAnswersEveryLoad | pkg/filters/goja/host_globals.go:385-447 | once a closed stream has sent its errors, every enqueued load has a result or was withdrawn |
| EventQueueRuns.DeliveryCanSkip | pkg/filters/goja/host_globals.go:359-420 | the failing run: a, b and c are pushed, loads receive a and c, more values than were pushed before the first drop |
| UpdateHub.RepoUpdateGroup.HandleUpdate | pkg/core/update_hub.go:155-172 | the loop over the buckets takes exactly the watchers of all other commits and leaves exactly the new commit's bucket |
| UpdateHub.RepoUpdateHub.Attach | pkg/core/update_hub.go:52-89 | the group under the key, or a fresh one, gains the watcher in the bucket of its commit |
| UpdateHub.RepoUpdateHub.Detach | pkg/core/update_hub.go:98-114 | the watcher leaves its bucket, an emptied bucket goes, and the group closes and leaves the table exactly when nothing is left in an open group |
| UpdateHub.RepoUpdateHub.SubscriptionEnded | pkg/core/update_hub.go:142-151 | an open group closes and leaves the table, a closed one changes nothing |
| UpdateHub.OpenIffStored | pkg/core/update_hub.go:58-82 | in every run a group is open exactly when it is stored under its key, so the retry in Attach is never taken |
| UpdateHub.AllReleasedEmptiesTable | pkg/core/update_hub.go:90-114 | once every release has been called the table is empty |
| UpdateHub.StaleReleaseSparesSuccessor | pkg/core/update_hub.go:98-114 | a release changes no group but its own and takes no other one out of the table |
| UpdateHub.OneFate | pkg/core/update_hub.go:77-177 | a watcher is at any time in its bucket, released or taken; it is killed at most once and only if taken, and a taken one is killed or about to be |
| UpdateHub.UpdateTakesExactly | pkg/core/update_hub.go:155-176 | an update with a new commit takes exactly the group's registered watchers of other commits |
| UpdateHub.RegisteredAreCurrentOrNewer | pkg/core/update_hub.go:155-172 | no bucket is empty; a watcher of another commit than the last seen one was attached after that was set |
| UpdateHub.LookupFinds | pkg/core/update_hub.go:52-76 | an Attach finds the open group of its key, or enters a fresh empty one |
| UpdateHub.RegisterFilesOne | pkg/core/update_hub.go:77-89 | it registers exactly its watcher there, in the bucket of its commit |
| UpdateHub.ClosedMeansEmptyOrEnded | pkg/core/update_hub.go:98-151 | in every run a closed group has no watcher left, or its subscription has ended |
| UpdateHub.SubscriptionEndCloses | pkg/core/update_hub.go:142-151 | the end of a subscription closes the group, takes it out of the table and keeps its watchers |
| UpdateHub.NobodyIsStuck | pkg/core/update_hub.go:52-177 | in every run: whoever holds the lock can finish, and with the lock free every attach, release and end can proceed; updates and kills need no lock |
| AliasStore.DomainAlias.Query | pkg/core/alias.go:25-35 | the repository stored under the domain, if any |
| AliasStore.DomainAlias.Bind | pkg/core/alias.go:37-94 | undisturbed: the list is the new one, dropped domains are gone, new ones point here, every other key is untouched |
| AliasStore.DomainAlias.UnbindDropped | pkg/core/alias.go:71-80 | exactly the old domains that are not listed any more go |
| AliasStore.DomainAlias.PointTo | pkg/core/alias.go:85-92 | exactly the listed domains point to the repository afterwards |
| AliasStore.DomainAlias.Unbind | pkg/core/alias.go:96-99 | removes exactly the domain's key |
| AliasStore.Base64Injective | pkg/core/alias.go:38 | the padded URL-safe base64 text determines the bytes |
| AliasStore.KeyTextInjective | pkg/core/alias.go:38-91 | lists and domains share one key space without collision: key texts are equal exactly for equal keys |
| AliasStore.QuadIs | pkg/core/alias.go:38 | each group of four digits holds the 24 bits of three bytes, six by six |
| AliasStore.HostnameIff | pkg/core/meta.go:363 | a host name is one label or more, dots between them, and a last part of 2 to 18 letters |
| AliasStore.LabelIs | pkg/core/meta.go:363 | a label is one letter or digit, or two of them around at most 61 letters, digits and hyphens |
| AliasStore.StepsAloneBind | pkg/core/alias.go:37-94 | the store operations taken one by one, without interference, have the effect of the whole Bind |
| AliasStore.OvertakenStartsOver | pkg/core/alias.go:52-70 | a Bind whose list was changed or removed meanwhile writes nothing and starts over |
| AliasStore.OverlappingBindsLeakAlias | pkg/core/alias.go:43-93 | two overlapping Binds of one repository can leave an alias that no list mentions |
| MetaFlight.ServerMeta.GetOrStartMetaUpdate | pkg/core/meta.go:184-197 | joins the update in the table or enters a fresh one, never a second one |
| MetaFlight.ServerMeta.TriggerMetaRefresh | pkg/core/meta.go:161-182 | starts a refresh exactly if none is under way and a slot is free |
| MetaFlight.ServerMeta.RunMetaUpdate | pkg/core/meta.go:199-218 | a finished update, also a panicked one, has exactly one field set, is out of the table and done, and its slot is back |
| MetaFlight.SingleFlight | pkg/core/meta.go:161-218 | no repository has two refreshes under way, and the table holds the one it has |
| MetaFlight.SlotsAreHeld | pkg/core/meta.go:161-182 | occupied slots are the triggered runs that still hold one, within capacity |
| MetaFlight.FinishedUpdates | pkg/core/meta.go:148-218 | a finished update has one field set, is out of the table, and all its woken waiters have that result |
| MetaFlight.ResultIsFinal | pkg/core/meta.go:199-218 | the result of a finished update never changes |
| MetaFlight.EarlyResult | pkg/core/meta.go:221-261 | a refresh that returns early has, for good, the page exactly if the cache held it, a missing page exactly if the cache says so, the repository or its page files are missing, and otherwise the failure itself |
| MetaFlight.BindResult | pkg/core/meta.go:262-273 | a refresh that reaches its Bind can only end with the page whose aliases it bound, or in a panic |
| MetaFlight.TriggerStarts | pkg/core/meta.go:161-182 | in every run a trigger starts a refresh in a slot exactly if none is under way and a slot is free |
| MetaFlight.WaiterJoins | pkg/core/meta.go:148-197 | a waiter joins the refresh under way for its repository or the one it starts |
| MetaFlight.WaiterIsWoken | pkg/core/meta.go:148-160 | a waiter of a finished refresh that has not given up can be woken, with its result |
| MetaFlight.FinishedRunLeaves | pkg/core/meta.go:199-218 | a refresh with its result can leave the table, close its channel and return its slot without waiting |
| MetaFlight.GivenUpIsFinal | pkg/core/meta.go:148-160 | who gave up waiting is never told a result |
| MetaFlight.EveryAliasAccountedFor | pkg/core/meta.go:262 | for every interleaving of store operations, each stored alias is listed by its repository or about to be removed by that repository's Bind |
| MetaFlight.QuietAliasesAreListed | pkg/core/meta.go:262 | with no Bind of the repository under way, it lists every alias that points to it |
| AliasClaims.ListedIffPoints | pkg/core/alias.go:37-94 | a domain that no other repository binds: with no Bind of the repository under way, it lists the domain if and only if the alias points to it |
| AliasClaims.WholeBind | pkg/core/meta.go:184-273 | from any idle state a whole refresh can follow that has the effect of an undisturbed Bind |
| AliasClaims.LaterBindWins | pkg/core/alias.go:90-92 | two claimants: the first one lists the domain, which points to the second |
| AliasClaims.DroppedAliasIsGone | pkg/core/alias.go:76-80 | then the first one drops the domain: the second one lists it, and it points to nobody |
| AliasClaims.ConsistentIffExclusive | pkg/core/alias.go:37-94 | in all runs a listed domain points to its repository, with none of its Binds under way, if and only if no two repositories claim the same host name |
| ResponseStream.ResponseStreamState.Write | pkg/filters/goja/response_stream.go:103-121 | verdict and whole new state of the locked section of write, by the flags |
| ResponseStream.ResponseStreamState.Flush | pkg/filters/goja/response_stream.go:123-140 | verdict of the locked section of flush, which changes nothing |
| ResponseStream.ResponseStreamState.Close | pkg/filters/goja/response_stream.go:142-156 | verdict and whole new state of the locked section of close |
| ResponseStream.ResponseStreamState.ServePending | pkg/filters/goja/response_stream.go:225-246 | the buffered chunks go out in order; after an error the output is still a prefix of them |
| ResponseStream.ResponseStreamState.HandleOp | pkg/filters/goja/response_stream.go:256-274 | one round of the serve loop: a write is answered nil only with all its bytes out, a failed write or a close ends serve, a failed flush does not |
| ResponseStream.SentIsPrefix | pkg/filters/goja/response_stream.go:186-277 | for every interleaving of writers, closer and server the bytes sent, first the chunks taken out of the buffer at the start and then the queued ones, are a prefix of the data of the buffered writes followed by those of the taken calls, in order |
| ResponseStream.AllSentInLoop | pkg/filters/goja/response_stream.go:236-276 | whenever serve is back in its loop, everything buffered and taken has gone out |
| ResponseStream.AskedIsEntered | pkg/filters/goja/response_stream.go:103-121 | the data these statements speak of are those each call was made with |
| ResponseStream.EnterDecides | pkg/filters/goja/response_stream.go:103-156 | in every run, by the flags a call meets: on a started open stream a write, a flush and the first close go to the server; before the start a write is buffered last unless another response was written; on a closed stream writes and flushes are refused |
| ResponseStream.HandleDecides | pkg/filters/goja/response_stream.go:256-274 | in every run the call in hand gets one answer, success exactly if its bytes and the flush went out or it is a close; a flush and a successful write keep the loop going |
| ResponseStream.WriteGoesOut | pkg/filters/goja/response_stream.go:186-266 | from every state with the server in its loop a write can follow that returns nil with its bytes next in the output |
| ResponseStream.WriteThenStartThenWrite | pkg/filters/goja/response_stream.go:103-266 | a whole response: one write before and one after the start, both succeed and go out in order behind one header |
| ResponseStream.HeaderOnceAndFirst | pkg/filters/goja/response_stream.go:211-235 | the header is written exactly once, with the start, and before any byte |
| ResponseStream.AnsweredExactlyOnce | pkg/filters/goja/response_stream.go:251-276 | every call taken from the queue is taken and answered once, no other call is answered |
| ResponseStream.SuccessfulWriteIsSent | pkg/filters/goja/response_stream.go:186-266 | a queued write that returned nil has its bytes in the output, right after everything before it |
| ResponseStream.EveryReturnHasItsReason | pkg/filters/goja/response_stream.go:103-202 | in every run a call that succeeded was buffered or answered so, and for each way to fail what it reports is the case |
| ResponseStream.NoCallIsStuck | pkg/filters/goja/response_stream.go:186-202 | in every run an offered call can be taken by the loop, an answered one can return, and all can once serve has ended or the context is done |
| ResponseStream.ClosedFirstTakesNothing | pkg/filters/goja/response_stream.go:236-249 | a stream closed before it is served never gets to its loop and takes no call |
| ResponseStream.RefusedAfterClose | pkg/filters/goja/response_stream.go:103-137 | a write or flush begun after close is refused for good and never reaches the server |
| ServerSentEvents.EncodePayload | pkg/filters/goja/framework_bootstrap.go:127-139 | the payload is the optional event, id and retry lines, one data line for each line of the text, and an empty line |
| ServerSentEvents.WithoutCRTakesOut | pkg/filters/goja/framework_bootstrap.go:135 | the encoder takes a carriage return out wherever it stands, and nothing with it |
| ServerSentEvents.WithoutCRKeeps | pkg/filters/goja/framework_bootstrap.go:135 | no carriage return is left, and a text without one stays as it is |
| ServerSentEvents.PayloadLineCount | pkg/filters/goja/framework_bootstrap.go:135-137 | a payload has one data line more than the text has line feeds, between its head and the empty line |
| ServerSentEvents.RoundTrip | pkg/filters/goja/framework_bootstrap.go:127-139 | a standard parser dispatches exactly one event for each send, in order, with type, id in force and the text without carriage returns; a text that has none arrives as it was sent; the parser ends with the last reconnection time made of digits |
| ServerSentEvents.RoundTripExactly | pkg/filters/goja/framework_bootstrap.go:127-139 | the parser reports what was sent if and only if event names have no CR or LF and ids no CR, LF or NUL |
| Addresses.MappedPrefixAccepts | pkg/core/request.go:141-148 | an IPv4-mapped prefix of 96 to 128 bits, normalised, accepts the unmapped address exactly when the original covers the address as a number |
| Addresses.NormalizedAcceptsExactly | pkg/core/request.go:48-59 | what any normalised IPv6 prefix accepts after unmapping, exactly |
| Addresses.NormalizationFaithfulIff | pkg/core/request.go:141-148 | normalisation decides all 128-bit addresses as numbers if and only if the prefix has at least 96 bits or leaves the mapped block out |
| Addresses.ShortPrefixRefusesItsOwn | pkg/core/request.go:141-148 | a prefix shorter than 96 bits around a mapped address refuses that address |
| Addresses.WholeSpaceRefusesMapped | pkg/core/request.go:141-148 | ::/0 covers every number and refuses all mapped addresses |
| Addresses.SingleAddressPrefixesAgree | pkg/filters/proxy.go:153-158 | a single denied address yields the same prefix as a single trusted one |
| Addresses.IsTrusted | pkg/core/request.go:48-59 | true exactly if some prefix contains the unmapped address |
| HeaderText.SplitHeaderValues | pkg/core/request.go:284-308 | the loop computes the quote-aware split whose effect on printed headers the round trip lemmas give |
| HeaderText.CollapseKeepsIff | pkg/core/request.go:310-317 | unescaping keeps a text exactly if it has no escaped quote or backslash, and shortens every other |
| HeaderText.SplitOnJoin | pkg/core/request.go:166-168 | splitting two texts joined by the separator yields the parts of both |
| HeaderText.SplitJoin | pkg/core/request.go:284-308 | the quote-aware split of two joined texts is that of each, if the first closes its quotes |
| HeaderText.ReplacePairAt | pkg/core/request.go:310-317 | unescaping replaces the first pair and goes on behind it |
| HeaderText.TrimIs | pkg/core/request.go:127 | trimming takes off spaces at both ends and nothing else |
| Forwarding.ClientOfIs | pkg/core/request.go:234-242 | the client is the last untrusted address of the chain, or the first if all are trusted |
| Forwarding.ResolveClientIPFromChain | pkg/core/request.go:234-247 | the loop from the right returns that client; without a chain, the peer if it is untrusted |
| Forwarding.ParseForwardedValues | pkg/core/request.go:185-232 | over all lines, elements and parameters: the chain of first addresses per element, the first scheme and the first host |
| Forwarding.BareIff | pkg/filters/proxy.go:334-344 | a value is printed as it is exactly if it is not empty and holds none of the seven special characters |
| ForwardedRoundTrip.FirstSplit | pkg/core/request.go:284-308 | the split at commas leaves a printed header in one piece and takes off exactly the printer's escapes |
| ForwardedRoundTrip.SecondSplit | pkg/core/request.go:284-308 | the split at semicolons yields address and scheme, then the pieces of the host |
| ForwardedRoundTrip.RoundTrip | pkg/filters/proxy.go:315-344 | for every address, both schemes and every host: address and scheme come back, and the host comes back if and only if it is trimmed and survives the two splits |
| ForwardedRoundTrip.PlainRoundTrip | pkg/filters/proxy.go:315-344 | a trimmed host without quote and backslash comes back with address and scheme under every trust policy |
| ForwardedRoundTrip.PlainHostSurvives | pkg/filters/proxy.go:334-344 | every host without quote and backslash survives the two splits |
| ForwardedRoundTrip.BackslashIsLost | pkg/filters/proxy.go:334-344 | a host that starts with a backslash does not come back |
| ForwardedRoundTrip.AddrWithPort | pkg/core/request.go:126-139 | a printed address with a port, bracketed for IPv6, parses to the unmapped address |
| ForwardedChain.ChainRoundTrip | pkg/core/request.go:185-232 | for every chain of proxies: their printed headers, as several lines or joined by commas into one, parse to their addresses in the order of printing and to the first scheme |
| ForwardedChain.FirstHostFound | pkg/core/request.go:215-219 | the host found is that of the first header with one, if it survives the two splits |
| ForwardedChain.FrontLinesIgnored | pkg/core/request.go:185-242 | whatever Forwarded lines come first, the client stays the same as soon as the later ones name an untrusted address |
| ForwardedChain.FrontTextIgnored | pkg/core/request.go:284-308 | the same for text and a comma in front of a line, if the text closes its quotes |
| ForwardedChain.OpenQuoteHides | pkg/core/request.go:284-308 | an open quote in front of a line hides its addresses: the failing case of that condition |
| ForwardedChain.ParamDecides | pkg/core/request.go:192-220 | for every text: a parameter, its key in any case, names the first address of its element, the first scheme that is http or https, or the first host |
| ForwardedChain.ObfuscatedNamesNothing | pkg/core/request.go:273-282 | unknown and names that start with an underscore stand for no address |
| ForwardedChain.AddressesRoundTrip | pkg/core/request.go:164-173 | printed X-Forwarded-For addresses, on several lines or one, parse to these addresses in order |
| ForwardedFor.ParseLegacyForwardedValues | pkg/core/request.go:164-181 | the client of the X-Forwarded-For chain or the untrusted peer, else the first X-Real-IP address; the first scheme and the first host of their lines |
| ForwardedFor.FirstForwardedProto | pkg/core/request.go:249-259 | the first http or https among the pieces of all lines |
| ForwardedFor.FirstForwardedHost | pkg/core/request.go:261-271 | the first piece of all lines that is not blank |
| ForwardedFor.FirstOfIs | pkg/core/request.go:249-271 | what is found is picked from the first piece that has something, or nothing has |
| ForwardedFor.PickSchemeIs | pkg/core/request.go:249-259 | a piece gives a scheme exactly if it is http or https in any case with spaces around it |
| ForwardedFor.FirstRealIP | pkg/core/request.go:174-180 | the first X-Real-IP value that is an address |
| ForwardedFor.SchemeAndHostJoin | pkg/core/request.go:249-271 | several lines name the scheme and the host that their comma-joined form names |
| ForwardedFor.LinesJoin | pkg/core/request.go:164-173 | several X-Forwarded-For lines give the chain of their comma-joined form, with any blanks after the commas (section 5.3 of RFC 9110) |
| ForwardedFor.PrependedIgnored | pkg/core/request.go:164-174 | text and a comma put in front of a line change nothing once the line names an untrusted address |
| ProviderCache.BlobKeyInjective | pkg/core/cache.go:133-135 | for names without a slash, blob keys are equal exactly for equal paths |
| ProviderCache.DirKeyInjective | pkg/core/cache.go:137-139 | the same for directory keys |
| ProviderCache.KeysCollideIff | pkg/core/cache.go:133-139 | a blob and a directory share a key if and only if the blob's owner is the directory's owner after "dir:" |
| ProviderCache.SlashesCollide | pkg/core/cache.go:133-135 | with a slash in a name different paths share a key |
| ProviderCache.ReplayIsFaithfulIff | pkg/core/cache.go:141-175 | a kept response is replayed as it was if and only if its status was 200 and its length fits an int |
| ProviderCache.ProviderCache.AcquireBackend | pkg/core/cache.go:200-207 | takes a slot exactly if one is free and the context is alive |
| ProviderCache.ProviderCache.CacheResponse | pkg/core/cache.go:288-307 | reads, puts and closes: the backend slot comes back on every path |
| ProviderCache.ProviderCache.HandleBackendResponse | pkg/core/cache.go:223-249 | which responses stream with their slot, which are cached, what is put, and that every other path gives the slot back |
| ProviderCache.ProviderCache.Open | pkg/core/cache.go:107-131 | a slot is kept exactly by a streamed body; only the path's key changes; a sound store stays sound, and the answer is the backend's or a failure, and not a failure if nothing goes wrong around the call; a hit is answered from the store; an undisturbed miss keeps a missing file or a response within the limit, and nothing else |
| ProviderCache.ProviderCache.List | pkg/core/cache.go:87-105 | both semaphores are back at their old level; a sound store stays sound, and the entries are the backend's or a failure; a hit is answered from the store; an undisturbed miss keeps what it found while a cache slot is free |
| ProviderCache.CloserWrapper.Close | pkg/utils/reader.go:17-20 | every Close, also a repeated one, takes one token out of the semaphore |
| ProviderCacheRuns.SlotsConserved | pkg/core/cache.go:76-325 | in every run slots in use equal calls in progress plus open bodies that carry one, if and only if no such body was closed again; capacities are never exceeded |
| ProviderCacheRuns.DoubleCloseOverfills | pkg/utils/reader.go:17-20 | for every capacity and every streamed response there is a run with one repeated Close after which one more call than the capacity is at the backend |
| ProviderCacheRuns.ReleaseNeverBlocks | pkg/core/cache.go:200-286 | without repeated closes every step but acquiring can be taken at once |
| ProviderCacheRuns.QuietIsFree | pkg/core/cache.go:76-325 | with no call in progress and no body open both semaphores are empty |
| ProviderCacheRuns.NoCallIsStuck | pkg/core/cache.go:87-325 | without repeated closes every call in every run can take its next step; only one that waits for a backend slot needs a free one, and it can be cancelled |
| ProviderCacheRuns.OpenAnswers | pkg/core/cache.go:107-131 | for every backend there is a run in which a first Open returns exactly what the backend answers |
| ProviderCacheRuns.ListAnswers | pkg/core/cache.go:87-105 | the same for List |
| ProviderCacheRuns.HitReturns | pkg/core/cache.go:141-198 | in every run a hit returns what the store holds and takes no slot |
| ProviderCacheRuns.KeptWithinLimit | pkg/core/cache.go:223-249 | in every run nothing over the limit is in the cache or on its way into it |
| ProviderCacheRuns.CancelAndEvict | pkg/core/cache.go:200-207 | a cancelled wait ends in a failure and holds nothing; an evicted key is gone, and nothing else |
| ProviderCacheRuns.ResultsAgree | pkg/core/cache.go:87-325 | under every interleaving, eviction, skipped slot and size bypass, a returned result is the backend's answer or a failure |
| ProviderCacheRuns.BadStatusReplayed | pkg/core/cache.go:141-175 | for any well-named path with a cacheable response of another status there is a run in which a second Open returns what the backend never answered |
| ProviderCacheRuns.AgreesIffReplayable | pkg/core/cache.go:87-325 | over all runs on well-named paths, results are the backend's answers or failures if and only if every response that can be kept and loaded again has status 200 |
| BodyStream.LimitedReader.Read | pkg/filters/goja/fetch.go:198-207 | the reader's reply, turned into an error as soon as the count exceeds the limit |
| BodyStream.BodySource.Open | pkg/filters/goja/request.go:187-203 | opens once |
| BodyStream.ReadableStream.BeginRead | pkg/filters/goja/stream.go:119-151 | whole new state up to the unlocked read, by the flags: end, refusal, or the reader opened once |
| BodyStream.ReadableStream.EndRead | pkg/filters/goja/stream.go:156-180 | whole new state, field by field, and result after the read, for data, EOF with or after data, and errors |
| BodyStream.ReadableStream.Close | pkg/filters/goja/stream.go:183-206 | closes once |
| BodyStream.ReadableStream.Read | pkg/filters/goja/stream.go:119-181 | the two sections around one legal read, with a close in between or not |
| BodyStream.WebBody.Claim | pkg/filters/goja/body.go:177-185 | only the first claim succeeds |
| BodyStream.WebBody.Consume | pkg/filters/goja/body.go:187-205 | for every chunking: exactly the whole body, or an error; without read errors the body if and only if it fits the limit and the reader closes without error; the reader is closed once |
| BodyStream.DeliveredIsPrefix | pkg/filters/goja/stream.go:119-206 | in every run the delivered bytes are a prefix of the body no longer than the limit |
| BodyStream.EndMeansAll | pkg/filters/goja/stream.go:156-180 | at the end the whole body has been delivered if and only if no read met EOF together with bytes while closing the reader failed; a body over the limit never gets there |
| BodyStream.LastChunkWithheld | pkg/filters/goja/stream.go:165-171 | a run that ends the stream and never delivers its one byte |
| BodyStream.ReaderClosedOnce | pkg/filters/goja/stream.go:183-206 | an opened reader is closed exactly once, at the end of the stream |
| BodyStream.ClosedDeliversNoMore | pkg/filters/goja/stream.go:183-206 | in every run a close is for good, and once the read under way is over nothing more is delivered |
| FilterChain.NestedIsFlat | pkg/core/filter.go:54-71 | the nested closures mean the flat scan: cut at the first filter that does not call next, then recover outwards, nearest first, on a missing page only |
| FilterChain.OneWriter | pkg/core/filter.go:54-71 | if no filter writes when it reports a missing page, the response is what the innermost reached filter that finds something makes of the untouched response |
| FilterPages.MadeBehaves | pkg/filters/direct.go:22-59 | direct, failback, 404, redirect and block recover, answer or pass as classified, write nothing when they report a missing page, and cannot be made exactly for the listed bad parameters |
| FilterPages.MadeAnswers | pkg/filters/block.go:12-33 | what the filters of a route answer by their parameters: block its code and message, redirect its code, failback and direct the file they look up |
| FilterPages.ParsePageConfig | pkg/core/meta.go:275-361 | accepted exactly if all aliases, globs and filter types are good; the aliases are the accepted CNAME and the checked items in order; the list is defaults, redirect, routes, direct, and starts with the defaults and ends with direct even on errors |
| FilterPages.AppendAliases | pkg/core/meta.go:318-327 | the checked items in order after those before, or a refusal exactly if some item is bad |
| FilterPages.AliasesAre | pkg/core/meta.go:285-327 | an alias is in the list exactly if it is the accepted CNAME or the accepted form of a configured item |
| FilterPages.PageAliasesAre | pkg/core/meta.go:284-327 | the aliases of a page are the trimmed CNAME if the check accepts it, first, and what the check makes of the configured items |
| FilterPages.RouteItemAt | pkg/core/meta.go:341-359 | by position: every item that is not blank gives one filter with its pattern, type and parameters, behind those of all earlier items and routes |
| FilterPages.RoutesAre | pkg/core/meta.go:341-359 | no other filters come from the routes |
| FilterPages.AppendRoutes | pkg/core/meta.go:341-359 | the filters of all route items in order, or a refusal exactly if some item that is not blank has a bad glob or a type that is not enabled |
| FilterPages.PageOrdered | pkg/core/meta.go:60-83 | for every list of routes the 404 filter is first and the root direct filter last |
| FilterPages.ServePage | pkg/server.go:349-397 | selection, reversal and fold yield the nested closures of the matching filters in list order, or the first reason why one cannot be made |
| FilterPages.RequestIsFlatScan | pkg/server.go:352-396 | for every manager and every request: if some matching filter cannot be made, the first such one ends the request with its reason and an untouched response; otherwise the request means the flat scan of its matching filters |
| FilterPages.RequestHasOneWriter | pkg/server.go:352-396 | if no matching filter writes when it reports a missing page, at most one filter makes the response |
| FilterPages.PageServed | pkg/server.go:352-396 | on every page a request stops before any filter if and only if some matching filter cannot be made, by its type and parameters; otherwise the 404 page is the last resort around the rest, and plain files come first if none of these answers by itself |
| FilterPages.PageHasOneWriter | pkg/core/filter.go:54-71 | on every page at most one filter makes the response, if the filters that are not built in write nothing when they report a missing page |
| FilterPages.BlockedPathStops | pkg/filters/block.go:14-16 | on every page a path that a default block filter matches ends the request with a missing page and an untouched response |
| FilterPages.PlainPage | pkg/filters/direct.go:22-59 | a page without alias and routes serves the file, and the 404 page if there is none, except exactly for the blocked paths, which end with a missing page |
| FilterPages.PlainPageAnswers | pkg/filters/direct.go:22-59 | a page without alias and routes, by the files of the site: the file of the path or of the index of a directory; else the way to a directory with an index; else the 404 page; 405 for other methods |
| FilterPages.AliasPageAnswers | pkg/filters/redirect.go:17-60 | a page with aliases sends visitors of other hosts to the first alias, same path without index.html, with 302; under an alias it is the plain page |

## Left out

- HTTP transport, TLS, DNS, the Gitea API, OAuth and disk access: input and output; readers, writers and backends are abstract.
- The script engine, promises, WebSocket frames and typed arrays: only "loads and resolutions happen on one loop" is kept.
- `ensureStream` and `superviseEventStream`: the map of streams by key and the resubscription backoff; one stream is modelled from its creation on.
- `wait` with a timeout, the 20 ms cancel timer and `ready`: time is not modelled.
- Expiry of cache entries: it is one case of the arbitrary eviction in `ProviderCacheRuns`.
- `GetMeta`'s choice between a cached page and a refresh: a case split on the entry's age; `MetaFlight` lets any caller wait for or trigger a refresh at any time.
- AliasStore.DomainAlias.Bind: does not model key-value errors, which the source ignores for deletes and puts; the invariant does not hold with them.
- ForwardedRoundTrip.RoundTrip: addresses have no zone, and their text form is any faithful print and parse pair.
- HeaderText.SplitHeaderValues: letters are lowered for ASCII only, and invalid UTF-8 is not modelled.
- Forwarding.ParseForwardedValues: results are stated through a recursive reading of lines, elements and parameters; what that reading means is said by `ForwardedRoundTrip`, `ForwardedChain.ChainRoundTrip`, `ForwardedChain.ParamDecides` and `Forwarding.ClientOfIs`.
- ProviderCache.ProviderCache.Open: headers other than Last-Modified, Content-Type and Content-Length are not part of a response.
- ProviderCacheRuns.ResultsAgree: is stated for runs on owners that do not start with "dir:" and names without a slash, because other names can collide (`ProviderCache.KeysCollideIff`, `ProviderCache.SlashesCollide`).
- ProviderCache.ProviderCache.List: a nil list of entries is stored but never found again; the model keeps that.
- BodyStream.WebBody.Consume: does not model two consumers at once on one stream beyond the claim, nor the writable stream.
- UpdateHub.OneFate: the closing of the subscription and of the done channel is not modelled.
- FilterPages.MadeBehaves: covers the five filters named there; what script, proxy and template filters answer is not modelled, they are arbitrary kinds in `RequestIsFlatScan` and `PageServed`.
- Security headers, cookies, the debug page, configuration defaults and logging: single-branch facts.
- JSON, YAML, glob and regular expression libraries: uninterpreted functions, except the host name pattern in `AliasStore`.
