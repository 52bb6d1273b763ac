# ComputeID, verified

A Dafny model of the ComputeID Go SDK and its Postgres-backed server, with proofs about every run of them:
agent passports and the server's agent tables under concurrent requests, the persisted signing key, the device
code allocator, the migration runner, and the text formats in between. `dafny verify dfyconfig.toml` checks it.

## How it is built

- **Server tables as step systems.** `Registry`, `Devices` and `Migrations` advance one SQL statement per step.
  Statements of any number of requests (and server processes, and runners) interleave; a statement may run, fail, or
  take effect although its client is told that it failed (`Statements.Fault`); processes and runners may crash at any
  point. UNIQUE, PRIMARY KEY, foreign key and CHECK constraints, row locks and waiting are part of the step functions.
- **Handlers as classes.** `AgentHandlers.Store`, `DeviceHandlers.Store` and `MigrationRunner.Runner` are the
  handlers as the program runs them, statement after statement on mutable tables. Each is proved to do what its
  thread of the step system does when it runs alone (`AgentHandlers.StatementIsAdvance` with the `Store` contracts,
  `DeviceHandlers.RegisteringIsSerial`, `ApprovingIsStep`, `AuthenticatingIsStep`, `MigrationRunner.MigratingIsRun`),
  so the theorems about runs are about the handlers.
- **Local passports** are mutable objects (`Agent.AgentPassport`, `Office.PassportOffice`) proved against functions on
  passport values (`Passports`), and a step system (`LocalRuns`) whose atomic steps are the critical sections. Each
  method run by one caller is a run of its call in the step system (`LocalAlone`).
- **Formats** are printer/parser pairs over unbounded Unicode text: `Utf8`, `JsonText`, `JsonNumber`, `Json`,
  `Payload`, `GoQuote`, `Base64Url`, `Jwt`, `DeviceCode`, `Uuid`, `Routes`. `GoValues` is what `encoding/json` does to a
  value of type `any`, numbers becoming float64s; `Members` is what it does to a struct; `PassportText`,
  `PassportCodec`, `PassportNames` and `PassportReload` are an exported passport as bytes. Besides round trips, what is
  written is stated literally: alphabets, escapes, member names, paths and claim names, field by field.

`strings.ToUpper`, `unicode.IsPrint`, "blank after trimming", HMAC, migration bodies, the signature scheme, the
rounding and formatting of float64s, the text of a time and the case folding of member names are function parameters.
The only assumptions are that a signature verifies under the key that made it, what IsPrint says of ASCII, that
rounding to a float64 is idempotent and its text reads back (`GoValues.Sound`; `GoValues.Binary64` where the integers
that are float64s matter), and that a time that has a text is read back from it (`PassportText.Faithful`). Clocks, random
bytes and new ids are parameters of the steps, so every theorem holds for every choice of them.

## Findings

- *A revoke can answer 200 and leave its passport active.* `handleAgentRevoke` runs UPDATE and then a separate EXISTS;
  if the passport is registered in between, the answer is 200 and no order of atomic operations explains it
  (`RegistryEffects.LateCreationUnexplained`). The database agrees with an atomic registry exactly when no EXISTS
  query finds an active row (`RegistryLin.LegalIff`).
- *Overlapping first boots disagree about the key.* `generateAndPersistSigner` keeps its own key when
  `ON CONFLICT DO NOTHING` stored nothing, so any fresh passport can be reported as wrongly signed
  (`RegistryKeys.TwoBootsDisagree`). All servers hold the stored key exactly when no first boot's insert meets another key
  (`RegistryKeys.KeysAgreeIff`).
- *A second spelling of a device type can never register.* The counter is keyed by the type as sent, the code by its
  upper case; with nothing else wrong an insertion is refused exactly when another spelling owns a device
  (`DeviceRuns.RefusedIff`), and that is for good (`DeviceRuns.SpellingIsFinal`).
- *Some names and reasons get no lifecycle audit row.* Go's `%q` is not JSON; the row is written exactly for texts
  both spell alike (`GoQuote.DetailsAccepted`, `RegistryAudit.LifecycleIff`).
- *An id with a slash can reach another operation.* The escaped slash is decoded before the route patterns are
  matched (`Routes.SlashReachesCapability`); `Routes.ServedIff` says exactly which calls come back as sent.
- *A limit above 500 does not mean 500 but 50* (`Routes.LimitIff`).
- *Large integers change.* JSON numbers decode to float64s, so the claim 2^53 + 1 never comes back from `verifyJWT`
  (`Jwt.SmallClaimsReturn`), and an export reloads as it was exactly when every integer in its details is a float64
  (`PassportReload.ReloadIff`).
- *Export "round-trips through Load" but for three fields*: type and version become the defaults, the email becomes
  empty (`Passports.LoadExportIff`).
- *A local passport keeps its last revocation reason* (`Passports.LastReasonWins`), the server its first
  (`RegistryEffects.OneRevokeWrites`).

## Model

| member | source | states |
|---|---|---|
| Utf8.DecodeEncode | server/signer.go:108-112 | text survives its UTF-8 bytes, for every sequence of scalar values |
| Utf8.EncodeDecode | server/signer.go:108-112 | bytes that decode are the encoding of what they decode to |
| Utf8.EncodeInjective | server/signer.go:108-112 | two texts never share their bytes |
| Utf8.EncodedForm | server/signer.go:108-112 | the bytes of each character, range by range (RFC 3629, section 3) |
| JsonText.DecodeEscaped | server/signer.go:108-112 | a decoder (RFC 8259, section 7) reads every text back from Go's escaping, including `<`, `>`, `&`, U+2028 and U+2029 |
| JsonText.OwnSpelling | server/signer.go:108-112 | the characters that stand for themselves; the escapes of all others are spelled out by `ShortSpellings`, `CodeSpellings` and `MoreCodeSpellings` |
| JsonNumber.IntTextValue | server/handlers_devices.go:210-216 | the text of every integer is a JSON number of exactly that value, read as float or as integer |
| JsonNumber.NumberHasParts | server/handlers_devices.go:241-242 | every number literal is a sign, whole digits, a fraction and an exponent (RFC 8259, section 6) |
| JsonNumber.PartsAreNumber | server/handlers_devices.go:241-242 | and every such text is a number literal |
| JsonNumber.PartsSpell | server/handlers_devices.go:241-242 | its value is its digits scaled by its exponent less the length of its fraction |
| Json.RoundTrip | agent.go:254-272 | parsing a printed JSON value, compact or indented, nested to any depth and with any number literals, gives the value back |
| Json.PrintInjective | agent.go:254-267 | no two values share a text |
| Json.PrintedList | agent.go:254-267 | a list item by item, compact or two blanks deeper at each level |
| Json.PrintedObject | agent.go:254-267 | an object member by member, likewise |
| GoValues.FromToJson | server/handlers_devices.go:213-242 | a value of type any comes back from its JSON with its integers rounded to float64s, or not at all if one is out of range |
| GoValues.Kinds | server/handlers_devices.go:241-242 | each kind of JSON value decodes to its Go kind |
| GoValues.LastWins | server/handlers_devices.go:241-242 | of repeated members the last one is kept |
| GoValues.RoundedIff | server/handlers_devices.go:241-242 | numbers come back as they were if and only if every integer, at any depth, is a float64 |
| GoValues.PlainIff | agent.go:254-294 | the JSON text stays the same if and only if every integer keeps its text as a float64 |
| GoValues.DecodedSettles | server/handlers_devices.go:241-242 | what was decoded once never changes again |
| Payload.CanonicalText | server/signer.go:97-112 | the signed text, member by member: each field under its own name, in this order |
| Payload.DecodeCanonical | server/signer.go:97-112 | the canonical payload bytes decode to id, name, organization, capabilities and issue time |
| Payload.CanonicalInjective | server/signer.go:95-112 | no two payloads share the bytes that are signed |
| GoQuote.QuotedDecodes | server/handlers_agents.go:81-84 | a `%q` literal read as JSON gives its own text if and only if every character is spelled alike; otherwise it is no JSON string |
| GoQuote.OwnSpelling | server/handlers_agents.go:81-84 | the characters `%q` leaves as they are; the others are spelled out by `ControlSpellings`, `CodeSpellings` and `LongSpelling` |
| GoQuote.DetailsAccepted | server/handlers_agents.go:303-306 | the jsonb cast accepts the `%q` details exactly for such texts and then stores the text itself |
| Base64Url.DecodeEncode | server/handlers_devices.go:217-222 | unpadded base64url round-trips bytes of every length |
| Base64Url.EncodeAlphabet | server/handlers_devices.go:217-222 | its alphabet has no dot and no line break |
| Base64Url.EncodeAt | server/handlers_devices.go:217-222 | each symbol is the alphabet letter of its own six bits (RFC 4648, section 5) |
| Jwt.TokenText | server/handlers_devices.go:210-222 | the token is the fixed header, the claims and the MAC of both under the secret, each in base64url |
| Jwt.VerifyUnder | server/handlers_devices.go:226-246 | a token signed under one secret verifies under another if and only if the MACs of its text agree and its claims decode |
| Jwt.VerifySigned | server/handlers_devices.go:210-246 | a signed token verifies under the same secret, for every MAC function and claims map, and yields the claims with integers as float64s, or an error if one is out of range |
| Jwt.ClaimsReturnIff | server/handlers_devices.go:210-246 | the very claims come back if and only if every integer in them is a float64 |
| Jwt.SmallClaimsReturn | server/handlers_devices.go:210-246 | integers of at most 2^53 in magnitude always come back, the claim 2^53 + 1 never does |
| Jwt.ChangedClaim | server/handlers_devices.go:241-242 | such a claim is accepted as the nearest float64 instead |
| Jwt.AcceptedIff | server/handlers_devices.go:226-246 | exactly which tokens are accepted with which claims: three parts, the third the MAC of the others under the secret, the second claims, fractions and exponents included; header and expiry play no part |
| DeviceCode.PaddedValue | server/handlers_devices.go:68 | `%03d` loses nothing, at any size |
| DeviceCode.PaddedWidth | server/handlers_devices.go:68 | it pads to three digits and is longer only for a number that needs it |
| DeviceCode.FirstCodes | server/handlers_devices.go:68 | the codes of the numbers 1, 42 and 1000 |
| DeviceCode.LastDash | server/handlers_devices.go:68 | the last dash splits a code, whatever dashes and digits the type has |
| DeviceCode.CodeInjective | server/handlers_devices.go:68 | two codes are equal if and only if the upper-cased types and the numbers are |
| Uuid.NewUuid | agent.go:316-325 | the in-place edit of the random bytes yields their 32 lower-case digits in order between dashes at 8, 13, 18 and 23, the seventh byte keeping four bits and the ninth six |
| Uuid.ParseUuidText | agent.go:323-324 | the text determines the sixteen bytes |
| Uuid.VersionAndVariant | server/server.go:223-229 | every generated id has version digit 4 and a variant digit |
| Uuid.CollideIff | server/server.go:223-229 | two draws collide exactly when they agree on the 122 free bits |
| Lexical.SortedUnique | server/migrate.go:36 | sorting names has one possible result, whatever order they are read in |
| Lexical.BelowIff | server/migrate.go:36 | the order: a proper prefix, or lower at the first difference |
| Routes.MatchTailIff | server/server.go:89-94 | the pattern with one submatch matches exactly the paths built from a non-empty slash-free id |
| Routes.MatchCapabilityIff | server/server.go:89-94 | the capability pattern likewise, for id and capability |
| Routes.PatternsDisjoint | server/server.go:96-117 | no path matches two patterns, so the order of the cases is irrelevant |
| Routes.Requests | client.go:146-193 | the method and target of every SDK call, spelled out |
| Routes.EscapedForm | client.go:146-193 | which bytes of a name are kept and how the others are escaped |
| Routes.Routed | server/server.go:87-117 | which paths reach which operation, spelled out |
| Routes.ListPath | client.go:174-178 | the path built in two steps is the target of the call |
| Routes.ServedIff | client.go:146-193 | the server gives an SDK call back its own operation, id, capability and query if and only if its names are non-empty, slash-free and not dot segments |
| Routes.SlashReachesCapability | server/server.go:96-105 | verifying the agent `a/capabilities` is answered as a capability check on `a` |
| Routes.LimitIff | server/handlers_agents.go:233-238 | the caller's limit is applied exactly from 1 to 500, any other means 50 |
| Members.LookedPresent | agent.go:244-272 | every member of a struct is found again by the decoder, and an omitted one is not |
| Members.StructInjective | agent.go:244-251 | no two structs are the same object |
| Members.FindIff | agent.go:270-272 | a field is filled from the last member of its name, or of its name in another case that is no other field's own |
| PassportNames.DocumentMembers | agent.go:212-265 | which field of the passport is written under which of the fifteen names, in this order, empty optional ones left out |
| PassportNames.DocumentReadIff | agent.go:270-292 | which of the fifteen names each field is read from: an object is read as a document if and only if every member reads as its field |
| PassportNames.EntryMembers | agent.go:32-39 | the same for writing a log entry |
| PassportNames.EntryReadIff | agent.go:32-39 | and for reading one |
| PassportNames.CapabilitiesMembers | capabilities.go:16-31 | the same for writing the fourteen capabilities |
| PassportNames.CapabilitiesReadIff | capabilities.go:16-31 | and for reading them |
| PassportNames.StatusWords | agent.go:16-20 | the three words of a status |
| PassportNames.OutcomeWords | agent.go:25-29 | the three words of an outcome |
| PassportNames.TimesAndLogs | agent.go:270-272 | how times and logs are read, absent ones as the zero time and the empty log |
| PassportNames.DecodeIff | agent.go:270-274 | which bytes are read as a document |
| PassportCodec.DecodeEncode | agent.go:254-272 | reading the exported bytes gives the document with the integers of details and custom permissions as float64s, or an error |
| PassportReload.ReloadIsEquivalent | agent.go:254-294 | a passport reloaded from its exported bytes answers every later sequence of calls as the original, up to the Go type of numbers, as long as integers in details are float64s |
| PassportReload.ReloadIsExact | agent.go:254-294 | and the very same when those numbers were float64s before |
| PassportReload.ReloadIff | agent.go:254-294 | it does so if and only if every such integer is a float64: any other shows in the reloaded passport's own export |
| PassportReload.ExportLoadExport | agent.go:254-294 | export, load, export gives the same bytes if and only if every such integer keeps its text as a float64 |
| PassportReload.ReexportIff | agent.go:254-294 | whatever bytes are loaded, the new export describes the same document if and only if that one counted as many actions as it listed |
| Passports.LoadIsEquivalent | agent.go:254-294 | beneath the text, loading the exported record answers every sequence of calls as the original |
| Passports.LoadExportIff | agent.go:276-292 | the object comes back whole if and only if type, email and version were the defaults |
| Passports.LastReasonWins | agent.go:175-186 | a later local revocation replaces the reason, nothing else touches it |
| Passports.AllowsIff | capabilities.go:105-134 | the seven action names and the capability each of them asks for |
| Agent.AgentPassport.Issue | agent.go:84-135 | when it is refused, field by field what the new passport holds, with its defaults, its day of validity and its first log entry; with a parent, that the parent may spawn and is trusted |
| Agent.AgentPassport.LogAction | agent.go:139-156 | appends exactly the returned entry, whatever its outcome text; default outcome success |
| Agent.AgentPassport.IsTrusted | agent.go:190-201 | true if and only if the passport is active and has no expiry or is not past it; an observed expiry is stored |
| Agent.AgentPassport.VerifyAction | agent.go:161-171 | true if and only if the passport is trusted and its capabilities grant the action; then the log stays, else it gains exactly one blocked entry for the action that names the test that failed |
| Agent.AgentPassport.Revoke | agent.go:175-186 | status, time, reason or "Manual revocation", and one log entry with the reason |
| Agent.AgentPassport.AuditLog | agent.go:204-210 | the whole log |
| Agent.AgentPassport.Summary | agent.go:227-242 | the summary of the current value, with the log's length |
| Agent.AgentPassport.Document | agent.go:255-265 | the record of the current value |
| Agent.AgentPassport.Export | agent.go:254-267 | the indented JSON bytes of the record, or the encoder's error exactly when one of its times has no text |
| Agent.AgentPassport.Load | agent.go:270-294 | a new object, field by field what the bytes describe, or the registration error exactly when they describe none |
| Agent.AgentPassport.Use | agent.go:137-267 | any sequence of calls answers and ends as the value semantics says |
| Agent.RequirePassport | helpers.go:42-62 | refused without trust; refused with a blocked entry when trust is gone or the capability not granted; otherwise the function's own effects and result, and the one `_call` entry after them |
| Office.PassportOffice.RegisterAgent | office.go:43-50 | adds the agent under its own id, or nothing for an empty id |
| Office.PassportOffice.RegisterDevice | office.go:33-40 | adds the device under its own id, or nothing for an empty id |
| Office.PassportOffice.IsTrusted | office.go:53-58 | trust of a registered agent; only that passport can change |
| Office.PassportOffice.RevokeAgent | office.go:61-73 | found if and only if registered; only that passport is revoked, with the office's default reason |
| Office.PassportOffice.ActiveAgents | office.go:76-86 | exactly the agents trusted at their own clock readings, for any walk of the map |
| Office.PassportOffice.AuditReport | office.go:119-144 | one line per agent for any walk and any clock, each with that agent's fields and log; the active count is the number of active lines |
| Office.PassportOffice.CountDevices | office.go:138-142 | the number of active devices |
| LocalAlone.MethodIsRun | agent.go:137-267 | every method, run by one caller, is a run of its call in the concurrent model with the same object and answer |
| LocalAlone.GuardingIsRun | helpers.go:42-62 | so is a guarded function, with any calls of its own |
| LocalAlone.IssuingIsRun | agent.go:84-135 | so is issuing, with the parent's check |
| LocalAlone.ReportingIsRun | office.go:119-137 | so is a report: its lines, an active count that agrees with them, and no torn line |
| LocalRuns.RunGrows | agent.go:139-201 | over any stretch of any run no passport disappears, becomes active again, loses log entries or changes another field |
| LocalRuns.TrustLatches | agent.go:161-201 | once a check has failed or a revocation has run, every later check fails, even if the clock goes back |
| LocalRuns.LogsArePrefixes | agent.go:204-210 | every log is a prefix of every later log of that passport |
| LocalRuns.GuardAdmits | helpers.go:42-54 | a guarded function runs only after an instant inside its call when the passport was active, unexpired and granted the action |
| LocalAudit.CallsWriteWhatTheyOwe | helpers.go:54-60 | every finished call has written exactly its own entry; each guarded function that returned one `_call` entry, a failure if and only if it erred |
| LocalAudit.LogIsJournal | agent.go:139-156 | a log is exactly the entries written by the calls, in lock order |
| LocalAudit.SnapshotsAreOrdered | agent.go:254-267 | every export or report, in progress or finished and however torn, holds prefixes in the right order |
| LocalAudit.ExportIsOrdered | agent.go:254-267 | an export counts at least the entries it lists, and they are a prefix of every later log |
| LocalAudit.ReportIsOrdered | office.go:119-137 | a report has one line for every passport of its walk, with that passport's id, counting at most the entries it lists, and they are a prefix of every later log |
| LocalAudit.ReportCount | office.go:129-137 | a report's active count is at least its active lines, equal exactly when no passport lost trust between check and summary |
| LocalSpawn.AlwaysForest | agent.go:84-135 | parent links always form a forest ordered by issue time |
| LocalSpawn.NoCycles | agent.go:129-131 | no passport is its own ancestor, and issue times never rise along a chain |
| LocalSpawn.LinksAreVouched | agent.go:88-95 | inside the call that built a child its parent could spawn and passed the trust check |
| Registry.StepGrows | server/handlers_agents.go:280-288 | no statement removes a row, writes to a revoked one, or rewrites what was signed |
| Registry.RunGrows | server/handlers_agents.go:280-306 | the same over any stretch of a run; audit rows are never changed or removed |
| RegistryLin.ExecuteLegal | server/handlers_agents.go:36-312 | a statement's effect and answer are those of the atomic operation, unless it overlooks a row |
| RegistryLin.OverlookedIllegal | server/handlers_agents.go:293-301 | a revoke that overlooks a row leaves the database behind the atomic registry |
| RegistryLin.LegalIff | server/handlers_agents.go:274-312 | the database agrees with the atomic registry at every instant if and only if no EXISTS query finds an active row |
| RegistryLin.Linearizable | server/handlers_agents.go:36-312 | then every interleaving is linearisable: one point inside each request, in real-time order, leading to the stored table |
| RegistryLin.FaultFree | server/handlers_agents.go:36-312 | without database faults every answer is exactly the atomic one |
| RegistryLin.UndisturbedLinearizable | server/handlers_agents.go:274-301 | it is enough that no passport is created while a revoke of its id is between its two queries |
| RegistryEffects.RevokedStays | server/handlers_agents.go:280-288 | a successful revoke takes effect and is never taken back |
| RegistryEffects.NoGrantAfter | server/handlers_agents.go:142-156 | after it no check is granted and no verification answers active |
| RegistryEffects.OneRevokeWrites | server/handlers_agents.go:274-288 | in every run, whatever fails or is overlooked, exactly one of all revokes of a passport has written to the database, and the row carries its time and its own reason, or "manual revocation" for an empty one |
| RegistryEffects.OneEntryWrites | server/handlers_agents.go:280-288 | so too in every legal order of atomic operations |
| RegistryEffects.OverlooksIff | server/handlers_agents.go:280-301 | a revoke overlooks a row if and only if the row was created between its two queries and no other revoke has hit it since |
| RegistryEffects.DecidedIff | server/handlers_agents.go:280-301 | the statement at which a revoke becomes bound to answer 200 leaves the passport revoked if and only if it does not overlook an active row |
| RegistryEffects.DecidedForGood | server/handlers_agents.go:280-301 | such a revoke's passport stays revoked in every run, whatever other requests do |
| RegistryEffects.RevokedMeansRevoked | server/handlers_agents.go:274-312 | a revoke that has answered 200 has left its passport revoked, and answered with its own reason or "manual revocation" |
| RegistryEffects.NoGrantAfterUpdate | server/handlers_agents.go:142-156 | in any run, a check invoked after the UPDATE took effect is never granted |
| RegistryEffects.Unexplained | server/handlers_agents.go:289-301 | a history with a 200 before an active verification has no linearisation |
| RegistryEffects.LateCreationUnexplained | server/handlers_agents.go:289-301 | a run of the code with such a history, for every passport and reason |
| RegistryKeys.PayloadsMatchRows | server/handlers_agents.go:50-77 | in every reachable state each stored payload decodes to its row's own fields and its signature is over it |
| RegistryKeys.KeysAgreeIff | server/signer.go:29-68 | all servers hold the stored key at every instant if and only if no first boot's insert meets another key |
| RegistryKeys.SignaturesSurvive | server/signer.go:122-130 | then over any requests, crashes and restarts every stored passport, active or revoked, verifies under every server that is up |
| RegistryKeys.VerifyAffirms | server/handlers_agents.go:120-130 | and no verification ever answers that a signature is invalid |
| RegistryKeys.AloneNeverStale | server/signer.go:29-68 | first boots that do not overlap meet the condition |
| RegistryKeys.TwoBootsDisagree | server/signer.go:59-67 | two overlapping first boots after which an intact passport is reported as wrongly signed |
| RegistryAudit.AuditTrail | server/handlers_agents.go:81-84 | in every run each audit row names an existing passport, has a valid outcome and is its request's one row; what each request's row or lack of it means |
| RegistryAudit.Accounting | server/handlers_agents.go:179-216 | rows are logged actions plus lifecycle events, and every answered issue or revocation is among the lifecycle rows or the dropped ones |
| RegistryAudit.LifecycleIff | server/handlers_agents.go:303-306 | short of a lost statement an answered issue or revocation has its row if and only if its text is spelled alike |
| AgentHandlers.StatementIsAdvance | server/handlers_agents.go:36-312 | a statement of the concurrent model moves its request and the tables as one of a request alone does |
| AgentHandlers.AloneIsAtomic | server/handlers_agents.go:36-312 | a request that runs alone with nothing failing is the atomic operation |
| AgentHandlers.EnrollingIsAlone | server/handlers_agents.go:36-97 | the register handler is its thread run alone, whatever fails |
| AgentHandlers.RevokingIsAlone | server/handlers_agents.go:274-312 | the revoke handler is its thread run alone, whatever fails |
| AgentHandlers.LoadingIsBoot | server/signer.go:29-68 | loading the signer is a boot of the concurrent model with no other boot in between |
| AgentHandlers.Store.LoadOrInitSigner | server/signer.go:29-68 | the key row and the signer for every fault: the stored key, or the generated one kept whatever was stored; a stored key never changes |
| AgentHandlers.Store.InsertRow | server/handlers_agents.go:63-77 | refused by the primary key or a failure, else stored |
| AgentHandlers.Store.InsertEvent | server/handlers_agents.go:81-84 | the row of a text that `%q` and JSON spell alike, if the passport exists and the statement is not lost, else none; its error is ignored |
| AgentHandlers.Store.UpdateActive | server/handlers_agents.go:280-288 | one row if active, and what it then holds |
| AgentHandlers.Store.Register | server/handlers_agents.go:36-97 | for every fault the answer, the row field by field, and the audit row, equal to those of the register thread run alone |
| AgentHandlers.Store.Verify | server/handlers_agents.go:110-130 | the answer field by field, equal to that of the verify thread run alone |
| AgentHandlers.Store.Capability | server/handlers_agents.go:142-170 | granted if and only if the passport is active and lists the capability, each refusal with its reason, equal to the thread run alone |
| AgentHandlers.Store.LogAction | server/handlers_agents.go:179-216 | for every fault the answer and the row, its outcome the one given or "success" for none |
| AgentHandlers.Store.Revoke | server/handlers_agents.go:274-312 | for every fault the row, the answer and the audit row, each with the caller's own reason, or "manual revocation" for an empty one |
| Devices.AlwaysGood | server/handlers_devices.go:33-90 | in every reachable state the tables, the unique index, the row locks and the open transactions are consistent |
| DeviceRuns.CodesAreDense | server/handlers_devices.go:50-78 | in every run a type's codes are its numbers 1 to last_n with no gap or repeat, and last_n counts its devices |
| DeviceRuns.OneSpelling | server/handlers_devices.go:53-68 | at most one spelling of a type ever owns devices |
| DeviceRuns.RefusedIff | server/migrations/001_init.up.sql:57-64 | an insertion is refused by the code's UNIQUE constraint if and only if another spelling owns a device |
| DeviceRuns.SpellingIsFinal | server/handlers_devices.go:53-68 | once one spelling owns a device no other ever does, and its counter stays unset |
| DeviceRuns.RunGrows | server/handlers_devices.go:153-167 | devices are never removed; only a pending status changes, once, to active |
| DeviceRuns.AnswersHold | server/handlers_devices.go:81-167 | no two registrations share id or code; at most one approval of a device answers 200; a token is for an active device with that code |
| DeviceRuns.ActiveNeedsApproval | server/handlers_devices.go:153-167 | an active device was approved while pending, at the time on record |
| DeviceRuns.TokenIff | server/handlers_devices.go:103-149 | a device's code gets a token if and only if the device is active |
| DeviceRuns.NoDeadlock | server/handlers_devices.go:44-78 | of any open registrations some can go on |
| DeviceHandlers.Store.Register | server/handlers_devices.go:33-90 | both tables and the answer after the transaction, whichever statement fails: the next number of the type as sent, the upper-cased code, a pending device |
| DeviceHandlers.Store.Approve | server/handlers_devices.go:153-167 | the table and the answer, for every fault |
| DeviceHandlers.Store.Authenticate | server/handlers_devices.go:103-149 | each answer if and only if its condition holds of the code and the table; the token claims the device under "sub", its code, the issuer and an expiry one hour on |
| DeviceHandlers.RegisteringIsSerial | server/handlers_devices.go:33-90 | the handler leaves tables and answer as its transaction does when no other is open |
| DeviceHandlers.ApprovingIsStep | server/handlers_devices.go:153-167 | the approval handler is one step of the concurrent model, in any state |
| DeviceHandlers.AuthenticatingIsStep | server/handlers_devices.go:103-149 | the authentication handler's contract allows exactly the answer of the step, in any consistent state |
| DeviceHandlers.TokenNamesDevice | server/handlers_devices.go:131-149 | a token given out names, under "sub" and "device_code", a device that has the code and is active to this day, and its claims come back from verification if and only if the time of expiry is a float64 |
| Migrations.IsUpIff | server/migrate.go:32 | an up migration is a name that ends in `.up.sql` |
| Migrations.VersionOf | server/migrate.go:39 | and its version is the name without that |
| Migrations.ExactlyOncePrefix | server/migrate.go:17-74 | with any runners and crashes each body commits at most once, in lexical order, and versions and schema are those of the committed prefix |
| Migrations.NilMeansApplied | server/migrate.go:38-74 | when a run returns nil all is applied, and nothing any run does afterwards changes versions or schema |
| MigrationRunner.MigratingIsRun | server/migrate.go:17-74 | a run of the handler is a run of the concurrent model in which one runner starts while no transaction is open, with the same database and result |
| MigrationRunner.MadeIsFold | server/migrate.go:38-72 | the database the first files make, in the terms of the concurrent model |
| MigrationRunner.RunKeepsPrefix | server/migrate.go:38-74 | a run alone takes a prefix to a longer or equal one whatever fails, and to the whole list when it returns nil |
| MigrationRunner.RunAgain | server/migrate.go:38-52 | a rerun after all is applied changes nothing and returns nil unless a check fails |
| MigrationRunner.RunCompletes | server/migrate.go:38-74 | with nothing failing a run returns nil if and only if every body can be applied in turn |
| MigrationRunner.SortStrings | server/migrate.go:36 | the names in lexical order |
| MigrationRunner.Runner.Collect | server/migrate.go:26-36 | exactly the entries that are no directories and end in `.up.sql`, in ascending order |
| MigrationRunner.TransactLeaves | server/migrate.go:54-72 | what a file's transaction leaves, for each failure of its statements |
| MigrationRunner.Runner.ApplyFile | server/migrate.go:54-72 | body and version commit together or not at all |
| MigrationRunner.Runner.Migrate | server/migrate.go:17-74 | database and result of the loop, for every pattern of failures; when it returns nil every `.up.sql` file's version is recorded |

## Left out

- HTTP transport, JSON decoding of requests, response bodies, status codes as numbers, logging, health check, shutdown and the pgx adapter; a request enters the model decoded.
- Listing agents, actions and devices (`handleAgentList`, `handleAgentListActions`, `handleDeviceList`): single queries; of them only the limit clause is modelled.
- Admin token check, `NewClient` options, API error parsing, capability presets and the `cmd` and `examples` programs.
- RSA, SHA-256, HMAC, PEM, X.509, passport fingerprints and calendar formatting: abstract functions or opaque texts; no unforgeability is claimed, and a stored key that cannot be parsed is not modelled.
- Text that is not valid Unicode: strings are sequences of scalar values, which is what Go's JSON decoder delivers; bytes that are not UTF-8, where Go substitutes U+FFFD, are refused here. U+0000, which PostgreSQL refuses in TEXT and JSONB, and a malformed UUID in a path appear only as failing statements.
- The rounding of decimal literals to float64s itself, and Go's choice of digits for one: abstract functions, of which only `GoValues.Sound` and `GoValues.Binary64` are assumed. The sign of a zero is not modelled.
- Members repeated in a loaded document: the last one decides, where Go merges nested ones into what it has; a nesting depth over 10000, which Go refuses; integers beyond 64 bits in `max_actions_per_hour`, `max_token_budget` and `actions_logged`; empty but non-nil slices.
- A `last_n` beyond the 32-bit INTEGER column: it appears only as a failing statement.
- What the code does not do is not claimed: child capabilities bounded by the parent's, cascading revocation, expiry or header checks in `verifyJWT`, signature checks in capability checks, rate, domain or budget limits.
- Direct writes to exported struct fields and the unlocked field reads of `Export`: passports change only through their methods. A nil details map and an empty one are the same.
- A failing random source (`newUUID` error paths).
- Deadlock detection and statement timeouts of PostgreSQL appear only as failing statements; isolation is READ COMMITTED.
- Rolling upgrades: all migration runners embed the same files.
- `IsTrusted`, `Revoke` and the other methods of `Agent.AgentPassport` run alone on their object; concurrent use is modelled on values in `LocalRuns`, from the same functions.
- RegistryEffects.RevokedMeansRevoked: assumes that no revoke overlooks a row, because without that hypothesis it is false (`LateCreationUnexplained`).
- RegistryKeys.SignaturesSurvive: assumes that no first boot's insert meets another key, because without that hypothesis it is false (`TwoBootsDisagree`).
