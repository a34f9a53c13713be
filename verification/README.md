# mcpurl, modelled and proved in Dafny

mcpurl is a stdio bridge to a remote MCP server over Streamable HTTP, with its
own OAuth client and a small config editor.  This project models the parts of
it where mistakes are easy to make and hard to see, and proves what they are
for.

**The OAuth token flow** (`OAuthProtocol`, `OAuthInvariant`, `OAuthTheorems`,
`OAuthSharing`, `OAuthUnreadable`, `OAuthFailures`, `OAuthCalls`,
`OAuthWindows`, `OAuthFlow`, `TokenLadder`).  Any number of processes share a token store, a registration store and two families of file
locks, and talk to an authorization server that rotates refresh tokens
(RFC 6749 section 6) and registers clients (RFC 7591).  `OAuthProtocol` is the
transition system: `Enabled` says when a process may take a step, `NextProc`
and its `After...` helpers what the step does to the process, `NextStore`,
`NextRegs`, `NextTokLock`, `NextRegLock` and `NextServer` what it does to
everything shared.  A step is one load, save, delete, lock, unlock or
exchange; an `Event` may also be the clock, or the server withdrawing a token
or forgetting a client.  `OAuthInvariant` proves an inductive invariant over
every interleaving, the two theorem modules draw the promises from it,
`OAuthCalls` and `OAuthWindows` settle before a call begins what it asks of the
server and how it ends, `OAuthFailures` says what a failed access does to it, and
`OAuthFlow.Flow` is the Go type as a class: its methods perform the same
accesses, with any legal run of the other processes before each of them
(`World.Interfere`), and are proved to be runs of the system.  `TokenLadder`
puts the 401 loop of one HTTP request on top.

**The bridge** (`BridgeProtocol`, `BridgeInvariant`, `BridgeTheorems`,
`BridgeStory`, `BridgeLateInit`, `Bridge`).  The Run goroutine, any number of senders and the listener read a
generation, send, meet a 404 and race into `reinit`.  Again a transition system
(`Enabled`, `NextThread`, `Apply`), an inductive invariant, theorems over whole
runs, and the Go type as a class whose methods run against arbitrary steps of
all other threads.  The state records what went over the wire, what was
written to stdout, which sessions were replaced, and an account per stdin line.

**The event stream** (`EventStream`, `Sse`, `SseTheorems`, `SseMark`,
`SseTruncation`, `Client`).  The reader against section 9.2.6 of the WHATWG HTML standard, the
round trip through a server that prints events, exactly what a stream that
stops early yields, and the resumption of the server-to-client stream.

**The config editor** (`TextLines`, `TomlEdit`, `TomlTheorems`, `TomlHeaders`,
`Install`, `ProfileNames`, `ProfileReader`, `ProfileReadBack`, `ProfileFile`,
`ConfigFile`).  The line-level splice of one profile's block, the printer of
that block, what install and uninstall do to the bytes of the file, and, with a
reader of its own, what the file says about every profile afterwards.

**The redactor** (`Redact`).  The pattern, its leftmost greedy match, and what
replacing every match leaves.

## Where the code does less than its comments say

- "At most one browser window per process" (pkg/oauth/flow.go:223-224) does not
  hold: `OAuthWindows.SecondWindowIsPossible` is a run of one process that opens
  a second one without any client being dropped.  `OAuthWindows.WindowOpensWhen`
  says for every call, on what there is before it begins, exactly when it opens
  the browser; `OAuthWindows.SecondWindowWhen` says it for a process that has
  logged in once.  The bounds that hold without conditions are
  `TokenCallBounds`, `LoginNotAnsweredWithLogin` and `TokenLadder.DoAuthed`.
- A process past its check may still be left using a client that is not on file.
  `OAuthSharing.AgreementLostWhen` says for every step of every process exactly
  when that happens, and `OAuthSharing.AgreementHeldWhen` for every run since the
  check.  Among processes that only ask for tokens it takes a registration saved
  over the record, which happens when the record could not be read again under
  its lock: `OAuthUnreadable.RecordIsOverwritten` is such a run.
- A re-init may clear a live session: when the client sends another initialize
  after the handshake, and its answer brings a new session, an older 404 makes
  the bridge replace that one (`BridgeLateInit.LiveSessionReplaced`).  What holds
  in every case is that each re-init was called for by a dead session of its own
  (`BridgeTheorems.OneReinitPerDeadSession`), and without such a line it is the
  one that is replaced (`BridgeLateInit.ReinitsReplaceTheDead`).
- A server that ends the event stream cleanly in the middle of an event has a
  shortened event delivered under that event's id, which is then never sent
  again.  `SseTruncation.CleanEndIsHarmlessWhen` gives the exact byte positions
  at which this is harmless, and `SseTruncation.HarmfulCutExists` shows that
  every event with data has others.
- A CR on its own, and a leading byte order mark, are read differently from the
  standard.  `Sse.LfLinesAreStandard` says that the lines agree exactly without
  a bare CR, `SseMark.MarkLosesFirstLine` that a byte order mark costs exactly the
  first line, and `SseMark.MarkIsHarmlessWhen` exactly when that changes the
  events; `SseTheorems.BareCRIsMissed`, `SseMark.ByteOrderMarkIsKept` and
  `SseMark.MarkLosesEvent` are streams on which an event is lost.
- A profile with a bell, a vertical tab or another control character that has no
  letter is written with an escape that TOML 1.0.0 does not know:
  `ProfileReader.QuoteReadsBackWhen` and `ProfileFile.InstalledReadsBackWhen` say
  exactly which profiles are read back, for the escapes of Go, of TOML 1.0.0 and
  of TOML 1.1.0; `ProfileFile.BellIsNotRead` is one that is not.
- `install --name a.b` writes a `[profiles.a.b]` header that no later install or
  uninstall finds.  `ProfileNames.FoundAgainWhenPlain` says for exactly which
  names this happens.
- Uninstalling does not always restore the file install found:
  `ConfigFile.UninstallUndoesInstallWhen` says when it does.

## Model

| member | source | states |
|---|---|---|
| OAuthInvariant.StepKeepsInv | pkg/oauth/flow.go:114-279 | every step of every process, interleaved with any others, keeps the invariant: lock ownership, where refresh tokens come from, what each process may hold at each point |
| OAuthInvariant.EventKeepsInv | pkg/oauth/flow.go:114-279 | so do the clock and the server withdrawing tokens or forgetting clients on its own |
| OAuthInvariant.RunKeepsInv | pkg/oauth/flow.go:114-279 | hence every run of any number of processes keeps it |
| OAuthInvariant.LockStep | pkg/oauth/lock.go:15-26 | a lock has one holder, which is exactly the process inside its callback, also when a process dies |
| OAuthInvariant.RotationStep | pkg/oauth/flow.go:196-221 | a step never leaves a rotated-away refresh token in the store with the lock free |
| OAuthTheorems.RotationSafety | pkg/oauth/flow.go:148-233 | whenever a token's lock is free its stored refresh token is absent, the server's current one, or one the server withdrew by itself |
| OAuthTheorems.InvalidGrantIsRevocation | pkg/oauth/flow.go:313-325 | an invalid_grant answer means the server withdrew that very token: never that another process used it up |
| OAuthTheorems.NoInvalidGrant | pkg/oauth/flow.go:209-213 | with a server that withdraws nothing, no refresh of any interleaving can be answered invalid_grant |
| OAuthTheorems.StoreHoldsCurrent | pkg/oauth/flow.go:148-233 | with such a server a stored refresh token, its lock free, is exactly the one the server expects next |
| OAuthTheorems.RotationMustBeSaved | pkg/oauth/flow.go:201-207 | between a rotation and its Save the stored refresh token is dead, exactly when the answer carried a new one: why the save comes first |
| OAuthTheorems.SingleFlight | pkg/oauth/flow.go:165-174 | Token turns to the server only when the token then in the store is absent, not fresh, or the refused one |
| OAuthTheorems.StoreIdentity | pkg/oauth/flow.go:256-279 | every stored token records the client whose key it is under, and a refresh never loses the refresh token |
| OAuthTheorems.DynamicClientStaysHome | pkg/oauth/register.go:216-220 | Token uses a dynamic client for a refresh or a login only at the issuer that registered it |
| OAuthTheorems.DropSparesReplacement | pkg/oauth/register.go:227-245 | deleting a dropped registration never deletes one that replaced it, whatever ran in between |
| OAuthTheorems.TokenCallBounds | pkg/oauth/flow.go:114-126 | a Token call has at most two rounds and one login, and never returns the refused token |
| OAuthTheorems.LoginRemembered | pkg/oauth/register.go:259-266 | a process remembers its last login's token until its client is dropped or replaced, it logs in anew, or it restarts |
| OAuthTheorems.LoginNotAnsweredWithLogin | pkg/oauth/flow.go:223-227 | over any later run, refusing the last login's token opens no other browser in that process unless its client was dropped in between |
| OAuthSharing.AgreementLostWhen | pkg/oauth/register.go:129-146 | whatever the processes do, one that relies on its record on file and goes on relying on it loses it in a step if and only if that step saves another client over it, or is the deletion of Forget or of a Login dropping its client; for a step of Token, if and only if it saves another client over it |
| OAuthSharing.AgreementHeldWhen | pkg/oauth/register.go:247-257 | over every run since the clientReplaced check the record on file names the client in use throughout, if and only if nobody took it since |
| OAuthSharing.ClientAgreement | pkg/oauth/register.go:247-257 | so in runs of Token under one issuer in which a registration on file can be read, past the clientReplaced check the record on file names the client in use, at every step up to the unlock |
| OAuthUnreadable.RecordIsOverwritten | pkg/oauth/register.go:129-146 | such a step among processes that only ask for tokens: a legal run of two in which one cannot read the record and registers over it, while the other is past its check |
| OAuthSharing.OneExchange | pkg/oauth/flow.go:165-174 | however many processes ask at once, for a first token or to replace stale ones, at most one exchange happens while its result stays fresh |
| OAuthSharing.OneRegistration | pkg/oauth/register.go:129-146 | with no record on file any number of processes under one issuer register one client between them |
| OAuthWindows.SecondWindowIsPossible | pkg/oauth/flow.go:223-232 | a legal run of one process, from nothing, that reaches a second browser login without a dropped client |
| OAuthWindows.CallGoes | pkg/oauth/flow.go:128-233 | for every call with a client that is configured or on file at its issuer, run with everything working: its requests to the server in order, its answer and the store it leaves. A fresh token that was not refused is returned at once; a refused one of its own making, not called expired, is an error at once; a stored refresh token is spent exactly once unless its own last product was refused; only then comes one login, unless its own last product was refused |
| OAuthWindows.RefreshesSilently | pkg/oauth/flow.go:196-208 | so an expired or refused token with a good refresh token costs exactly one exchange and no browser, and the granted token is returned |
| OAuthWindows.WindowOpensWhen | pkg/oauth/flow.go:114-232 | hence the browser opens if and only if no token is usable, the refused one is not a fresh one of its own making, and the last login's was not refused with nothing to refresh or invalid_grant, or invalid_client is followed by a registration |
| OAuthWindows.SecondWindowWhen | pkg/oauth/flow.go:171-232 | so a process that has logged in opens another window if and only if that login's token is not the refused one, nor its last refresh's unless expired, nothing is usable, and nothing can be refreshed |
| OAuthWindows.ReplacedGoes | pkg/oauth/register.go:247-266 | a call whose dynamic client is no longer the one on file leaves it behind with all it brought and, in its second and last round, goes by the record: a fresh token of that client, one refresh, or one login, an error for a record that cannot be read, and a registration when there is none |
| OAuthWindows.ForeignGoes | pkg/oauth/flow.go:192-194 | a call whose dynamic client was registered at another issuer, with nothing usable, drops its token and record and registers anew |
| OAuthWindows.NewClientGoes | pkg/oauth/register.go:114-151 | with no client in memory or on file the call asks the server for one, and then for a login whose token is stored under the new client |
| OAuthWindows.NewClientOpensWhen | pkg/oauth/register.go:114-151 | so the browser opens if and only if the server registers one |
| OAuthCalls.StepFollows | pkg/oauth/flow.go:128-279 | whatever requests and ending may follow a step of a call were already to be expected before it, with the step's own request in front |
| OAuthCalls.ComesTrue | pkg/oauth/flow.go:128-279 | from any point of a call to its end the server is asked for, and the call ends with, what was to be expected there |
| OAuthCalls.CallIsSettled | pkg/oauth/flow.go:114-279 | for any client, standing, foreign, replaced or none, the requests a call makes, its answer and the store it leaves are settled by the stores, the process and the server's answers, a second round included |
| OAuthFailures.FailureEndsCall | pkg/oauth/flow.go:128-233 | a cancelled wait, an unreadable token or record, failed discovery, registration or save, and a refresh answered with any other error end the call: over every later run of all processes it asks nothing more of the server and ends with an error |
| OAuthFailures.FailurePassedOver | pkg/oauth/register.go:227-257 | the failures that do not: a token the fast path cannot read counts as absent, a failed deletion as done, and an unreadable record is registered over, leaves the client behind, and is not deleted |
| TokenStore.RefreshedLasts | pkg/oauth/flow.go:340-352 | a refreshed token is used until its last minute, or for good without a life span, and keeps the refresh token and scopes it came without |
| OAuthFlow.OthersKeep | pkg/oauth/flow.go:41-47 | no run of other processes changes a process's own fields, and no issued token is un-issued |
| OAuthFlow.World.Interfere | pkg/oauth/lock.go:12-14 | any legal run of the other processes may happen here, and the invariant holds after it; for a lone process that is still the clock and everything the server does on its own |
| OAuthFlow.World.Take | pkg/oauth/lock.go:15-26 | one access to shared state is one step of the transition system |
| OAuthFlow.Flow.Token | pkg/oauth/flow.go:114-126 | ends idle with a token the server issued, non-empty and not the refused one, or an error; for a lone process, whatever the clock and the server do meanwhile, either nothing was asked of the server and the ladder is one rung shorter, or the one refresh and one login are spent; and no browser opens, the client being on file at its issuer, while the store holds a refresh token that may be used and was not tried; and with discovery working a lone process with its client on file tries what can be tried: a fresh token in memory or store is returned with nothing asked of the server, otherwise a refresh is asked for if one is possible, and if not, the browser is opened, unless the refused token is its last login's |
| OAuthFlow.Flow.ResourceKey | pkg/oauth/flow.go:52-74 | the client in use or the one on file, or none yet, which leads on to registering one; a failing or corrupt file is an error |
| OAuthFlow.Flow.Round | pkg/oauth/flow.go:128-155 | one round: at most one refresh and one login; a dropped client leads to a second round only after the first |
| OAuthFlow.Flow.FastPath | pkg/oauth/flow.go:135-146 | answers only when nothing was refused, with a fresh token from memory, or else from the store, and touches nothing shared; gives no answer only if a token was refused or none is fresh |
| OAuthFlow.Flow.Obtain | pkg/oauth/flow.go:157-174 | under the lock: a replaced client is left behind at once; otherwise at most one refresh and one login, and a returned token is the one in the store as long as the lock is held; a lone process with nothing usable refreshes or logs in |
| OAuthFlow.Flow.Reload | pkg/oauth/flow.go:165-186 | the re-load answers at once with a fresh token that was not refused, which it keeps; refuses at once a token this process minted unless the challenge says expired; and otherwise goes on only with nothing usable |
| OAuthFlow.Flow.RefreshOrLogin | pkg/oauth/flow.go:188-233 | at most one refresh and one login; a refresh only of a stored refresh token whose last product was not the refused one, a browser without a refresh only if there is none such, and never for the last login's token; ClientGone only with the dynamic client left behind |
| OAuthFlow.Flow.Refresh | pkg/oauth/flow.go:198-221 | exactly one exchange, and from its answer to an outcome: at most one login follows, none for the last login's token; a returned token is the one in the store, and ClientGone leaves a dynamic client behind with everything got from it |
| OAuthFlow.Flow.KeepRefreshed | pkg/oauth/flow.go:201-208 | what the store holds when the token is returned is the refreshed token itself, kept in memory and remembered as the last refresh |
| OAuthFlow.Flow.AfterInvalidGrant | pkg/oauth/flow.go:209-232 | no second refresh and exactly one login, unless the last login's token was refused; a returned token is the one in the store |
| OAuthFlow.Flow.LoginAndSave | pkg/oauth/flow.go:256-279 | exactly one browser; the token returned is in the store under the client in use, stamped with that client and issuer, and remembered as the last login |
| OAuthFlow.Flow.EnsureClient | pkg/oauth/register.go:114-151 | a key for the client in use, or failure; for a lone process the registration in use is then the one on file, and a newly registered client has no stored token |
| OAuthFlow.Flow.AdoptOrRegister | pkg/oauth/register.go:129-146 | under the registration lock: on success the registration in use is the one on file, made at this issuer; a lone process that finds one there adopts it and registers nothing |
| OAuthFlow.Flow.DropClient | pkg/oauth/register.go:222-245 | everything this process got from the client is left behind, nothing is asked of the server, and for a lone process the record it used is gone |
| OAuthFlow.Flow.DeleteOwnRecord | pkg/oauth/register.go:235-240 | for a lone process a record that names the dropped client is gone afterwards; that no other is ever deleted is DropSparesReplacement |
| OAuthFlow.Flow.WithTokenLock | pkg/oauth/lock.go:15-26 | when the wait for the lock is cancelled somebody else holds it, the call fails, and nothing of the process has changed or was asked of the server; otherwise what Obtain promises holds across lock and unlock |
| OAuthFlow.Flow.Login | pkg/oauth/flow.go:369-407 | at most one browser and no refresh; a token is returned only if a browser brought it, is kept stamped with client and issuer, and is in a lone process's store; for a lone process with discovery working, its client at home and the lock free, exactly one browser |
| OAuthFlow.Flow.Forget | pkg/oauth/register.go:282-317 | for a lone process what is reported as dropped is exactly what there was, and neither the token nor a dynamic client's record is left |
| TokenLadder.Ask | pkg/mcp/client.go:196-202 | what each kind of token provider may answer: nothing, a fixed credential once, or the OAuth flow with its rank going down; question and answer go on record |
| TokenLadder.Rung | pkg/mcp/client.go:218-254 | one request with the token at hand, and when it is refused one question to the provider, with the refused token and its challenge; either the end or another token |
| TokenLadder.DoAuthed | pkg/mcp/client.go:204-255 | for any provider and server: every request carries the provider's last answer, every question but the first reports the refused request before it with its challenge, at most maxTokenCycles+1 requests; the end is the provider's error exactly when its last answer was one, and a 401 only without a provider, at the backstop, or when the refused token was offered again. For a lone OAuth flow, with the clock and the authorization server moving, against a server that refuses everything at most three requests, one refresh, one login, and the provider's error as the end |
| BridgeInvariant.StepKeepsInv | pkg/mcp/bridge.go:75-362 | every step of every goroutine keeps the bridge's invariant: mutex, generations, handshake, wire order, accounts |
| BridgeInvariant.RunKeepsInv | pkg/mcp/bridge.go:75-362 | so does every run, with sessions dying at any time |
| BridgeInvariant.CostStep | pkg/mcp/bridge.go:256-281 | what a step of the goroutine serving a line does to that line's account, and that no other line's account or error count moves |
| BridgeTheorems.GenerationsCountReinits | pkg/mcp/bridge.go:303-332 | the generation is the number of successful re-inits, and each observed generation led to exactly one |
| BridgeTheorems.OneReinitPerDeadSession | pkg/mcp/bridge.go:256-332 | with honest 404s, each re-init, the first included, was called for by a session the server issued and no longer honours, none by the current one, and no two by the same |
| BridgeTheorems.ReinitsBoundedByDead | pkg/mcp/bridge.go:299-332 | so there are never more re-inits than sessions that died |
| BridgeLateInit.ReinitsReplaceTheDead | pkg/mcp/bridge.go:299-332 | with no initialize line after the handshake, the session each re-init clears is the one whose 404 called for it: dead, not the current one, no two the same |
| BridgeLateInit.LiveSessionReplaced | pkg/mcp/client.go:365-366 | with one it need not be: an honest run in which the answer to a second initialize brings a session, and the re-init for an older 404 clears it alive |
| BridgeTheorems.OneReinitAtATime | pkg/mcp/bridge.go:303-305 | no two goroutines are inside a re-init at once |
| BridgeTheorems.HandshakeOrder | pkg/mcp/bridge.go:85-118 | up to the end of the handshake every request comes from the Run goroutine in stdin order; every other request, the GET stream included, goes out after initialize was answered and the initialized POST returned |
| BridgeTheorems.AloneUntilHandshake | pkg/mcp/bridge.go:103-117 | until then there is no sender and no listener |
| BridgeTheorems.InitializeIsCached | pkg/mcp/bridge.go:308-313 | the "no cached initialize request" branch is never taken |
| BridgeTheorems.ReinitsAreSilent | pkg/mcp/bridge.go:314-328 | a message in the response to the last request of its thread on the wire is written if and only if that request is no initialize and no initialized of a re-init |
| BridgeTheorems.OutputIsAnswers | pkg/mcp/bridge.go:314-328 | every message on stdout answers a request on the wire, of the same thread and for the same line, that no re-init sent |
| BridgeTheorems.OneEndPerLine | pkg/mcp/bridge.go:254-281 | a line given to send costs one or two POSTs and ends in one good POST or one -32603 (nothing, if it is no request), never both |
| BridgeTheorems.RequestsArePosts | pkg/mcp/client.go:209-255 | on the wire a line has at most as many requests as its account has POSTs, and one more for every 401 that had one built anew |
| BridgeTheorems.OnTheWireTwice | pkg/mcp/bridge.go:256-281 | so a line given to send is on the wire at most twice, but for those repetitions |
| BridgeTheorems.OneServerPerLine | pkg/mcp/bridge.go:103-110 | a line is served by one goroutine, and carries no error while it is served |
| BridgeStory.StoryRun | pkg/mcp/bridge.go:256-281 | over every run the marks a line's POSTs, re-inits and replay have left fit the point its goroutine has reached |
| BridgeStory.LineStory | pkg/mcp/bridge.go:256-281 | the whole story of a line given to send and dealt with: its one POST went well, or failed otherwise than by a 404, or by a 404 when there never was a session or its re-init failed; in every other case there was another session, and a second POST whose end was its end |
| BridgeStory.RenewedMeansReplay | pkg/mcp/bridge.go:264-272 | as soon as there is another session, brought by this goroutine or found, the line is posted again, for the second and last time |
| BridgeStory.ListenerGoesOn | pkg/mcp/bridge.go:335-362 | the listener ends when stopped, when no stream is offered or when its re-init failed, and only then; it asks for a re-init exactly when its session is gone, and listens again with the next |
| BridgeStory.ReinitGoesOn | pkg/mcp/bridge.go:303-332 | a re-init clears the session, repeats initialize and, when there was one, the initialized notification, which alone may fail; a failed one changes no generation |
| BridgeStory.RunGoesOn | pkg/mcp/bridge.go:75-232 | the Run goroutine ends with stdin or after reporting a failed initialize, and only then; the step that completes the handshake starts the listener, and from then on every line gets a sender |
| Bridge.OthersKeep | pkg/mcp/bridge.go:38-46 | no run of other goroutines moves a goroutine, touches its line's account, or changes session, generation and handshake under a held mutex |
| Bridge.MutexIsReleased | pkg/mcp/bridge.go:303-332 | from every reachable point the holder of handshakeMu can let go in at most three steps: a waiting goroutine is never stuck for good |
| Bridge.Bridge.Interfere | pkg/mcp/bridge.go:38-49 | any legal run of the other goroutines may happen here; the fields stay those of the state |
| Bridge.Bridge.Wait | pkg/mcp/bridge.go:283-297 | the others run until handshakeMu is free |
| Bridge.Bridge.Post | pkg/mcp/client.go:347-407 | one POST, its 401 ladder and its body: where it leaves the goroutine on success and on each error; inside a re-init the generation and the cached handshake stay put; a request for that job and line went out, unless no token was to be had |
| Bridge.Bridge.Build | pkg/mcp/client.go:157-176 | a request that goes out carries the session id of that moment; without a token none goes out |
| Bridge.Bridge.Deliver | pkg/mcp/bridge.go:364-372 | a message becomes the last line on stdout, unless a re-init received it |
| Bridge.Bridge.Send | pkg/mcp/bridge.go:256-281 | the line is posted, unless no token was to be had, and dealt with at the end, settled with one good POST or one error; which of the two, and after how many POSTs, is Recover and LineStory |
| Bridge.Bridge.Recover | pkg/mcp/bridge.go:263-273 | no replay only if there never was a session or the re-init failed in the generation the line was sent in; otherwise there is a newer generation and the replay is the line's second POST, and its end the line's; a replay, or the initialize of a failed re-init, went out unless no token was to be had |
| Bridge.Bridge.Reinit | pkg/mcp/bridge.go:299-332 | on success the generation is past the observed one; on failure it is still that one, and the caller reports |
| Bridge.Bridge.Replace | pkg/mcp/bridge.go:309-331 | a completed re-init counts exactly one generation, recorded as the successor of the observed one; a failed one counts none; the cached initialize, and the initialized notification if there is one, went out, unless no token was to be had |
| Bridge.Bridge.Clear | pkg/mcp/client.go:139-147 | the session id and the stream cursor are gone, and the cached initialize goes out next |
| Bridge.Bridge.SynthesizeError | pkg/mcp/bridge.go:374-398 | a request's -32603 is the last line written; a failed initialize ends Run |
| Bridge.Bridge.HandleInitialize | pkg/mcp/bridge.go:203-232 | initialize answered or Run over, with the error written last; answered, `sessioned` says exactly whether there is a session id |
| Bridge.Bridge.SerialPhase | pkg/mcp/bridge.go:162-185 | one line consumed; the handshake is reported complete exactly when initialize was answered and the initialized POST has returned |
| Bridge.Bridge.Run | pkg/mcp/bridge.go:75-118 | every line is consumed in order, or the lines up to a failed initialize, which is answered with an error if it is a request; every line given to send and dealt with is settled |
| Bridge.Bridge.Stream | pkg/mcp/bridge.go:343-359 | ends on a 405 or a 404 to a request without a session, which give it up, on a 404 to one with a session, which calls for a re-init, or with the context, and on nothing else |
| Bridge.Bridge.Listen | pkg/mcp/bridge.go:335-362 | ends because the stream is not offered, a re-init failed or the context is over, and for no other reason; "not offered" means a 405 or a 404 without a session, "failed" that the generation is still the observed one |
| EventStream.FoldGrows | pkg/mcp/sse.go:31-33 | the first lines of a stream dispatch its first events: nothing is taken back |
| Sse.LfLinesAreStandard | pkg/mcp/sse.go:76-90 | cutting at LF and trimming one CR gives the standard's lines if and only if no CR stands without its LF |
| Sse.Reader.ReadLine | pkg/mcp/sse.go:76-85 | consumes one line, an unterminated last one included; nothing more at the end, and nothing of a line a read error cut off |
| Sse.SplitField | pkg/mcp/sse.go:92-104 | field and value are what the standard processes for that line |
| Sse.Reader.TakeField | pkg/mcp/sse.go:52-71 | the reader's variables follow the standard's buffers: data lines joined by LF, ids without NUL taken, other fields ignored |
| Sse.Reader.Next | pkg/mcp/sse.go:31-73 | returns the first event of what is left and leaves the rest; strictly consumes input or reports the end |
| SseTheorems.ReadAll | pkg/mcp/client.go:380-389 | repeated Next yields exactly the events of the stream |
| SseTheorems.ReaderFollowsStandard | pkg/mcp/sse.go:17-73 | without bare CR and byte order mark those are the events of section 9.2.6, plus at a clean end the one event no blank line terminated |
| SseTheorems.BareCRIsMissed | pkg/mcp/sse.go:75-90 | a stream with a bare CR on which the reader misses an event of the standard |
| SseMark.ByteOrderMarkIsKept | pkg/mcp/sse.go:92-104 | a stream with a byte order mark on which it does |
| SseMark.MarkLosesFirstLine | pkg/mcp/sse.go:34-73 | of every stream with a byte order mark the reader loses the first line, and nothing else |
| SseMark.MarkIsHarmlessWhen | pkg/mcp/sse.go:34-73 | reader and standard agree on a marked stream if and only if the first line does nothing; or is data with no blank line behind it; or is an id that was there before, or that no event carries |
| SseMark.MarkLosesEvent | pkg/mcp/sse.go:34-73 | a marked stream that opens with an event loses it, and only it, in whichever way it ends |
| SseMark.DataShows | pkg/mcp/sse.go:54-58 | more data in front of some lines changes their events if and only if a blank line is among them |
| SseMark.IdShows | pkg/mcp/sse.go:59-64 | another id in front of some lines changes their events if and only if one is dispatched before the next id |
| SseTheorems.PrintReadRoundTrip | pkg/mcp/sse.go:34-104 | events printed with an id line, a data line per line of data and a blank line are read back unchanged, whichever way the stream ends |
| SseTheorems.BrokenStreamYieldsPrefix | pkg/mcp/sse.go:43-49 | a stream broken off at any byte yields a prefix of its events |
| SseTruncation.FoldCut | pkg/mcp/sse.go:42-48 | what the first k bytes of an event's data lines contribute when the stream then ends cleanly |
| SseTruncation.CleanEndInsideEvent | pkg/mcp/sse.go:31-48 | of an event cut off after k bytes by a clean end: nothing below one byte count, the event itself from another on, a shorter event under the same id in between |
| SseTruncation.Thresholds | pkg/mcp/sse.go:42-48 | the two byte counts differ exactly for events with data |
| SseTruncation.HarmfulCutExists | pkg/mcp/sse.go:42-48 | every event with data can be cut so that an empty one is delivered under its id |
| SseTruncation.ShortenedEvent | pkg/mcp/sse.go:42-48 | event 1 with data "ab", cut after 13 bytes, is delivered with data "a" |
| SseTruncation.CleanEndIsHarmlessWhen | pkg/mcp/client.go:503-523 | a clean end inside a replay delivers a prefix of it if and only if the cut leaves out all of an event's data or none of it |
| Client.Client.CaptureSession | pkg/mcp/client.go:178-194 | taken if and only if non-empty visible ASCII, otherwise the old id stays |
| Client.Client.ClearSession | pkg/mcp/client.go:139-147 | session and cursor go together |
| Client.Deliver | pkg/mcp/client.go:422-438 | valid JSON is handed over on one line, anything else is dropped |
| Client.OneLineEach | pkg/mcp/client.go:422-438 | if compact JSON has no LF, every event with JSON becomes exactly one line of stdout, and a payload that is one line already is that line |
| Client.Client.ReadStream | pkg/mcp/client.go:506-523 | what is delivered are the events read, and the cursor is the last id among them |
| Client.UnseenIsTail | pkg/mcp/client.go:480-484 | with ids of their own, the log after Last-Event-ID is exactly what has not been delivered |
| Client.StreamIsPrefix | pkg/mcp/client.go:506-515 | whatever part of a replay arrives, the reader makes its first events of it |
| Client.Client.ListenOnce | pkg/mcp/client.go:471-524 | which answers end the listening, which call for a re-init and which are retried; a stream delivers some first unseen events and moves the cursor to the last of them, anything else delivers nothing |
| Client.Advance | pkg/mcp/client.go:515-523 | a stream's deliveries continue what came before without gap or repetition |
| Client.Client.Listen | pkg/mcp/client.go:440-469 | over any number of drops the deliveries are a contiguous stretch of the server's log, each event once, with the cursor at its end |
| TextLines.JoinSplit | pkg/app/tomledit.go:17 | a text is its lines put together |
| TextLines.SplitJoin | pkg/app/tomledit.go:17 | lines put together are taken apart again as they were |
| TomlEdit.SplitTOMLKey | pkg/app/tomledit.go:82-108 | the parts of a dotted key, quotes honoured and parts trimmed |
| TomlEdit.FindOwn | pkg/app/tomledit.go:19-28 | the first header of the profile, and none before it |
| TomlEdit.FindForeign | pkg/app/tomledit.go:29-32 | the first other header after it, and none before that |
| TomlEdit.FindSection | pkg/app/tomledit.go:17-33 | the scan finds both in one pass, and no section if and only if no header addresses the profile |
| TomlEdit.SpliceProfileBlock | pkg/app/tomledit.go:11-54 | the method's three retreating and advancing loops compute the splice |
| TomlHeaders.HeaderIs | pkg/app/tomledit.go:60-72 | a header's key is what stands between its brackets, trimmed, whatever the indent and whatever follows, a comment say |
| TomlHeaders.HeaderWhen | pkg/app/tomledit.go:64-71 | a line is a header if and only if its first character that is no white space is an opening bracket and a closing one follows |
| TomlHeaders.BlankWhen | pkg/app/tomledit.go:56 | a line is blank if and only if all of it is white space |
| TomlHeaders.CommentWhen | pkg/app/tomledit.go:58 | a line is a comment if and only if its first character that is no white space is # |
| TomlHeaders.KeyReadsBack | pkg/app/tomledit.go:82-108 | a dotted key written from parts, bare or in quotes of either kind, is taken apart into those parts, each trimmed |
| TomlHeaders.TrimmedKey | pkg/app/tomledit.go:71-80 | trimming a key does not change its parts |
| TomlHeaders.HeaderAddresses | pkg/app/tomledit.go:60-80 | a header, however it is indented, quoted or commented, is the profile's own if and only if its first two parts are "profiles" and the name, and another table's otherwise |
| TomlTheorems.CutsAtSite | pkg/app/tomledit.go:34-47 | the cut is the only one with blank lines and the profile's header at its front, no other header in it, and blank and comment lines returned behind it |
| TomlTheorems.SpliceLines | pkg/app/tomledit.go:48-53 | the lines of the result are the lines above, the block's and the lines below, the last one completed |
| TomlTheorems.ReplaceIsIdempotent | pkg/app/tomledit.go:11-54 | for every text and every block of the name's lines, replacing twice gives the bytes of replacing once |
| TomlTheorems.DropIsComplete | pkg/app/tomledit.go:16-54 | after a removal a second one finds something if and only if the name had headers beyond the next other table |
| TomlTheorems.OthersSurvive | pkg/app/tomledit.go:37-44 | what goes is blank lines, the header and its section; all other tables' headers stay in order, and so does every comment that no line of the section follows |
| TomlTheorems.WrittenLines | pkg/app/tomledit.go:48-53 | the lines of the text written are those above the cut, the block, and those below it with the last one completed |
| TomlTheorems.HeadersSurvive | pkg/app/tomledit.go:11-54 | in the text written the headers of all other tables stand as they stood, trimmed and in order |
| TomlTheorems.InstallThenUninstall | pkg/app/install.go:273-299 | appending a block and removing it leaves the text with its last line completed and without blank lines at its end |
| TomlTheorems.UninstallRestoresWhen | pkg/app/tomledit.go:34-36 | which is the text itself if and only if it is empty or ends in a complete line that is not blank |
| Install.Quote | pkg/app/install.go:322 | a quoted value starts with a quote and never breaks the line |
| Install.JoinQuoted | pkg/app/install.go:329-335 | the quoted scopes, separated by ", " |
| Install.ProfileTOML | pkg/app/install.go:318-349 | the printer's loops and branches build exactly the block's lines, whose meaning is InstalledReadsBackWhen |
| ProfileNames.TitleAddressesPlain | pkg/app/tomledit.go:60-80 | the printed header addresses the profile if and only if the name has no dot, quote or closing bracket and no white space around it |
| ProfileNames.PrintedBlock | pkg/app/install.go:318-349 | for a plain name every line of the printed block belongs to that profile, whatever the values are |
| ProfileNames.FoundAgainWhenPlain | pkg/app/install.go:213-233 | a profile without headers that install appends is found again if and only if its name is plain |
| ProfileReader.QuoteReadsBackWhen | pkg/app/install.go:322 | a reader of quoted strings gets back every string that is printed, if and only if it knows the escapes of its characters: with those of Go always, with those of TOML 1.0.0 without a bell, a vertical tab and any control character that has no letter |
| ProfileReadBack.SettingsRead | pkg/app/install.go:322-342 | the settings are read back under their own keys, those that are absent as their zero values, those the reader cannot make out passed over |
| ProfileReadBack.HeadersRead | pkg/app/install.go:343-348 | the headers are read back in order, names and values |
| ProfileFile.InstalledReadsBackWhen | pkg/app/install.go:203-240 | after installing a new plainly named profile the reader of the file finds exactly that profile, if and only if it can make out all its texts; with the escapes of Go always |
| ProfileFile.UpdatedReadsBackWhen | pkg/app/install.go:226-233 | so it is after an update in place, for a profile without sections beyond the next other table |
| ProfileFile.UninstalledReadsEmpty | pkg/app/install.go:132-151 | after an uninstall the reader finds nothing of such a profile |
| ProfileFile.AppendingKeepsOthers | pkg/app/install.go:273-284 | installing a new profile leaves every other profile as it reads |
| ProfileFile.SplicingKeepsOthers | pkg/app/tomledit.go:11-54 | so does every update and every uninstall, whatever else the file holds |
| ProfileFile.BellIsNotRead | pkg/app/install.go:322 | a profile with a bell in its URL is written and, with the escapes of TOML 1.0.0 or 1.1.0, not read back |
| ConfigFile.App.EditProfileBlock | pkg/app/install.go:286-299 | the splice is written and the old text kept as backup, or nothing changes and the missing section is reported |
| ConfigFile.App.EnsureProfile | pkg/app/install.go:203-240 | appended, updated in place, reused or refused, with the text, the backup and the known profiles after each; and the profiles known stay those a reader finds in the file |
| ConfigFile.App.RemoveProfile | pkg/app/install.go:132-151 | the section and the profile are gone, or nothing has changed; the profiles known stay those a reader finds in the file |
| ConfigFile.App.InstallUninstall | pkg/app/install.go:99-104 | installing and uninstalling a plainly named profile leaves the profiles as they were and the text stripped of blank lines at its end |
| ConfigFile.MergeLaws | pkg/app/install.go:242-264 | without flags an install changes the URL alone; with all flags it keeps the headers alone; and two installs in turn are one with the second's flags laid over the first's |
| ConfigFile.ReinstallIsReused | pkg/app/install.go:242-271 | installing again with the same flags is a reuse, and a reuse loses no setting |
| ConfigFile.UpdateIsIdempotent | pkg/app/install.go:226-233 | updating a plainly named profile twice gives the same bytes as once |
| ConfigFile.UninstallUndoesInstallWhen | pkg/app/install.go:99-151 | for a printed profile, uninstall restores the text install found if and only if that is empty or ends in a complete line that is not blank |
| ConfigFile.DottedNameIsLost | pkg/app/install.go:320-322 | the profile "a.b" is written and never found again |
| Redact.MatchIsLongest | pkg/redact/redact.go:22-25 | the match length is that of the longest match at the front, and 0 exactly when the pattern matches nothing there |
| Redact.GreedyIsLongest | pkg/redact/redact.go:22-25 | the match a greedy backtracking matcher tries first is that longest one |
| Redact.EarlyExitAgrees | pkg/redact/redact.go:35-39 | returning early when there is no "eyJ" agrees with the scan |
| Redact.RedactionIsComplete | pkg/redact/redact.go:27-41 | no part of the output matches the pattern: no match straddles a marker |
| Redact.RedactionIsIdempotent | pkg/redact/redact.go:27-41 | redacting twice is redacting once |
| Redact.UntouchedWhen | pkg/redact/redact.go:34-41 | a text is unchanged if and only if it contains no match |
| Redact.PiecesAreRight | pkg/redact/redact.go:27-41 | the scan's pieces are the text in order; a character is kept exactly where no match starts, and what is replaced is the longest match that starts there |

## Left out

Assumptions of the token flow:

- All processes address one endpoint and the storage key is injective, so a client_id stands for its key; `Key` and `Canonicalize` are not modelled.
- The authorization server never repeats a client_id or an access token, and per client only the refresh token it handed out last is good, which is the strictest rotation there is.
- No process dies, and no `Save` fails, between the server's answer and the save of its token; `RotationMustBeSaved` shows that the promise fails otherwise.
- Store writes are atomic whole-value writes and a file lock excludes all other processes; pkg/atomicfile and `flock` are not part of this model.
- A browser login is one step that returns a token or an error; `browserLogin`, discovery, challenges and scopes beyond what is stored are not modelled.
- `Forget`, and `Login` when it drops a client, delete without the token lock, as the code does; the second `ensureClient` of `Login` is not checked against the issuer again, as in the code.
- Goroutines of one process call a Flow one at a time, which is what its mutex enforces.
- OAuthSharing.ClientAgreement: excludes a failing re-read of a registration that is on file; the exact condition, for all runs, is in `AgreementLostWhen` and `AgreementHeldWhen`.
- OAuthSharing.OneRegistration: also excludes failed saves of a registration and a server that forgets clients, each of which makes the code register again by design.
- OAuthFlow.Flow.Token: the bound on refreshes and logins of the whole ladder is for a lone process whose files can be read and written, while the clock runs and the server withdraws tokens and forgets clients as it likes; another process can renew the reasons for a refresh at any time.
- OAuthWindows.CallGoes: and what is drawn from it, `WindowOpensWhen` among them, for a call during which no other process moves, files and discovery work and no time passes, since any of these can change what there is between the beginning of the call and its decisions.

Assumptions of the bridge:

- The token provider may fail at any time, or, with `Bridge.provided`, never does; that discovery works is `World.reachable` in the same way. What the contracts say of a provider or a server that may fail leaves the failure open.
- Mcp-Session-Id arrives only on responses that accept an initialize, be it the handshake's, a re-init's or one the client sends later, and is never reused; `captureSession` reads it from every response, so a server that broke this could bring back an old id.
- BridgeTheorems.OneReinitPerDeadSession: for runs in which the server answers 404 only to a session it does not honour and every internal initialize succeeds with a session; without that, failed re-inits release the mutex with the session cleared and several can follow one death.
- That the stream cursor belongs to the current session while a sender's re-init races an open stream is not claimed: the code does not ensure it.
- A 401 inside a POST appears as the request being built anew, at most maxTokenCycles times; the ladder itself is `TokenLadder`.
- Bridge.Bridge.Stream: and `Bridge.Bridge.Listen` run for a given number of rounds, because the original runs until its context is cancelled; cancellation elsewhere, draining and `DeleteSession` are left out.
- Message bodies, the negotiated protocol version and the text of errors are not modelled; a stdin line is its text, its kind and whether it is a request.

The event stream and the client:

- One char stands for one byte; UTF-8 decoding of the standard beyond the byte order mark is left out.
- JSON validity and compaction are parameters.
- Client.Client.Listen: for a server whose events have ids of their own and valid JSON, which replays its log strictly after Last-Event-ID and cuts it at event boundaries or with a read error; `SseTruncation` says what a clean cut elsewhere does.
- Backoff, jitter, headers, content types and `bodySummary` are left out.

The config editor and the redactor:

- A string is a sequence of Unicode characters; what `range` and TrimSpace do to invalid UTF-8 is left out.
- `unicode.IsPrint` is a parameter of the quoting, and a profile's headers come in the order of their names.
- ProfileNames.FoundAgainWhenPlain: for profiles without stored headers, because the nested headers table is a second place where an odd name could be found.
- What a TOML parser makes of the whole file is not modelled: `ProfileReader` reads tables line by line and knows strings in double quotes, decimal numbers and lists of strings on one line; a line that looks like a header inside a multi-line string counts as one, as in the code. github.com/BurntSushi/toml is not part of this model.
- ProfileFile.UpdatedReadsBackWhen: and `ProfileFile.UninstalledReadsEmpty` are for a profile without headers beyond the next other table, since the splice leaves those alone; `TomlTheorems.DropIsComplete` says when there are any.
- The JSON edit of client configs, dry runs, file permissions, and the errors of reading and writing files are left out.
- The keychain, discovery, flags, printing and the command line are left out: they are plumbing around what is modelled.
