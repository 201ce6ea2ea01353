# Model of the Zeus client's protocol, cache and transformation code

The Zeus client runs turns between a language model and a data server.  This project models
the parts of it that other code has to rely on, and proves what they keep: over every
document, every run, every interleaving and every answer from outside.

| files | what they model |
|---|---|
| `Collections`, `Text`, `Decimal`, `Json` | optional values and lists without repeats, substring search and trimming, decimal numbers, decoded JSON and its two prompt surfaces |
| `Contract`, `ControlPlane`, `DigestView`, `DigestPaths`, `BagB`, `StampSurvival` | the contract digest, what it covers, and its stamp; healing, the live brief merge and the control-plane splice; why the digest does not move |
| `InjectProof` | the slices of a prompt that prove what was injected |
| `ToolTrail`, `Hooks`, `Policy`, `Bag`, `Turn`, `TurnLaws`, `AgentTurn` | the agent turn: message list, tool calls, trail, refusal flag, policy table; `Turn` is the reference that the imperative turn refines, `TurnLaws` says what its answer means |
| `JobStore`, `JobRuntime`, `JobLaws`, `EngineJobs` | the job runtimes as interleaved locked sections |
| `JobWire`, `Sse`, `JobWatch` | the job feed: events as JSON, server-sent events, resuming a watch |
| `TokenBucket`, `AuthCache`, `RetryLoop` | rate limiting, the session cache of basic authentication, retries |
| `SessionRounds` | sessions against a server on a lossy network |
| `Journal`, `SpanForest`, `TracePosts` | the journal and its tracers, the span forest, the order of trace posts |
| `CatalogNames`, `FilePath`, `CatalogMemo` | catalog names, cleaned paths, lookup, and the memo in front of it |

Code that works step by step is a class or a method with loops; its contract ties it to a
specification function or to the property itself, and lemmas prove what holds of that.
Concurrency is a transition system over the locked sections.  Whatever the client does not
decide - the network, clocks, the language model, the file system, minted ids - is an
argument, so each statement is about every behaviour of it.

## What the code does not quite do

The proofs found where a rule of the code holds only under a condition.  Each condition is
part of a statement below.

- A message of role "system" is stripped twice on its way into the digest, so it is cut at
  the earlier of its two markers.  The system prompt of the instructions is stripped once.
  Injection behind a mini schema alone is therefore safe for the first and unsafe for the
  second when the injected block brings a scope marker (`DigestView.SystemViewCases`,
  `BagB.InjectKeepsCanonical`).
- Healing loses a stamp that sits only in a wrapper, and one that a digested top-level
  "hash" key repeats (`StampSurvival.HealKeepsStamp`, shown by
  `StampSurvival.WrapperStampGoesStale`); nothing behind it loses one on ready surfaces
  (`StampSurvival.StampSurvives`).
- An inject slice that was closed by a bare "##" line at the end of the text changes when
  text is spliced behind it (`InjectProof.SlicesStable`, shown by
  `InjectProof.BareLineUnstable`).
- Clock stamps that arrive out of order can let a token bucket exceed its wall-clock bound
  (`TokenBucket.OutOfOrderExceeds`).  Over given stamps the bound holds whatever the calls
  cost exactly when the refills inside the window, each capped at the capacity, are worth no
  more than its wall-clock length (`TokenBucket.WallClockBoundExact`); what the steps back
  are worth is only an upper limit of the excess (`TokenBucket.WindowLength`).
- The job runtime's finished event announces the status that every later snapshot shows
  unless somebody cancels the job (`JobLaws.AnnouncedStatusStays`); a cancel between the
  last two locked sections turns an announced "ok" (`JobLaws.AnnouncedOkTurned`).  Such a
  cancel also clears a partial flag, and a later one does not (`JobLaws.PartialExactly`).  A run
  that ends in a host error stays "running" for good (`JobLaws.FailedRun`).
- A numeric timestamp between ten to the eleventh and ten to the twelfth milliseconds is
  taken for seconds (`JobWire.NumericStamps`).
- The wire drops a payload's "wave" key and, next to other extra keys, zero-valued lifted
  keys (`JobWire.WireIdentity`, shown by `JobWire.ZeroIsLost`).
- Resuming a watch on a log with foreign numbers loses what is numbered in the stretch
  already passed (`JobWatch.ResumeExact`, `JobWatch.ResumeSortedExact`, shown by
  `JobWatch.LateNumberIsLost`).
- A forced refusal does not always silence the model: its own summary goes out when its
  return has the action "refuse", or when the configured refusal text names the token that
  answers are scrubbed of (`Policy.ForcedAnswerIsIndependent`,
  `Policy.RefusalSpeaksSummary`); and that scrub can leave an empty answer
  (`Policy.ForcedTextEmpty`).
- A turn that runs out of rounds reports so even when its answer is taken for an alarm; its
  policy and its answer are then those of a refusal (`AgentTurn.RunAgentTurn`, shown by
  `AgentTurn.RefusedOutOfRounds`).
- The error text of a hop without a body reaches the model without being judged
  (`AgentTurn.ErrorTextIsNotJudged`).
- Tool calls from the ninth on stay unanswered (`Bag.NinthIsUnanswered`).
- Session rounds are consecutive only against a server that counts from at least 1, and
  with one commit for each set-up (`SessionRounds.FirstRoundExact`,
  `SessionRounds.SecondCommitRepeats`).
- The idle margin of the session cache is exact, and its hard deadline has no margin
  (`AuthCache.MarginIsExact`, `AuthCache.HardDeadlineHasNoMargin`).
- The memo of a catalog trusts modification times: a reused one, or a write between read
  and look, makes a stale hit (`CatalogMemo.ReusedTimeIsStale`,
  `CatalogMemo.RacingWriteIsStale`).
- The documented inverse of the scope directory name is one only for part of the names
  (`CatalogNames.ScopeRoundTrip`); scopes of clean bucket names share a directory when they
  differ by a leading underscore only, others also across buckets
  (`CatalogNames.SubdirsCollide`, `CatalogNames.SubdirsCollideAnywhere`).
- A written file name whose base id holds another one reads back with a longer mode
  (`CatalogNames.FileRoundTrip`, shown by `CatalogNames.InnerBaseMoves`).
- The names listed for a mode need not read back as it, if the mode reads like a lineage
  name, ends in the version mark or looks like a catalog's name
  (`CatalogNames.NamesReadBack`).
- What is saved under a mode without file names never resolves; what is saved without a
  bucket or a scope does so only where its path, once cleaned, is that of the same name in
  the user directory or its `min` (`CatalogMemo.SavedIsResolved`).  That takes a slash in the
  key (`CatalogMemo.FlatIsLost`), as in the scope "/.." (`CatalogMemo.RootScopeResolves`,
  `CatalogMemo.SlashedScopeIsRoot`).
- A success of the language model that is not a JSON object is classified as a retryable
  server error and yet never retried (`RetryLoop.MalformedSuccess`).

## Model

| member | source | states |
|---|---|---|
| StampSurvival.StampSurvives | domain/contract.go:140-165 | For string contents, on surfaces whose marker headings follow a blank line, a stamp that equals the digest when the catalog is read still equals it after healing, live brief merge and Bag B injection if and only if healing keeps it |
| StampSurvival.StampSurvivesInject | application/control_plane_inject.go:453-476 | For string contents, on any surfaces, a stamp that healing keeps equals the digest of what is sent if and only if injection into the merged document is safe (up to a collision of the digest) |
| StampSurvival.HealKeepsStamp | domain/contract.go:143-165 | Healing keeps a holding stamp if and only if trimming the surfaces changes nothing or does not move the digest, or the stamp is the document's own and no digested top-level hash key repeats it (up to a collision of the digest) |
| StampSurvival.WrapperStampGoesStale | domain/contract.go:143-165 | A concrete document whose wrapper stamp holds and after healing holds only if two digests collide |
| StampSurvival.StampingHolds | domain/contract.go:76-106 | Any document without a real contract hash can be stamped: its digest under "_hash" holds and its surfaces do not change |
| StampSurvival.HealSettles | domain/contract.go:143-165 | After healing, trimming the surfaces again would not move the digest, and each surface is the old one or its trimmed form |
| StampSurvival.MergeCanonical | domain/catalog.go:275-300 | Merging a live brief leaves exactly the digested tree that trimming the surfaces leaves |
| StampSurvival.EnsureKeeps | application/catalog_brief.go:88-128 | Merging the first live brief found keeps digest and stamp of a healed document, and readiness of each surface |
| StampSurvival.InjectKeeps | application/control_plane_inject.go:453-476 | Injection keeps the digest of every document with ready surfaces |
| StampSurvival.InjectKeepsPlace | application/control_plane_inject.go:453-476 | Injection keeps the stamp of every document |
| StampSurvival.LiveBriefOpens | domain/catalog.go:251-272 | A brief cut from a live catalog is empty or opens with the brief heading and has no blank ends |
| StampSurvival.EmbeddedRewrite | domain/contract.go:339-354 | Rewriting the embedded stamp replaces exactly what the extractor then reads |
| StampSurvival.HexIsReal | domain/contract.go:356-365 | A hexadecimal digest always passes for a real hash |
| DigestView.StripAppend | domain/contract.go:224-235 | Text appended behind a blank line leaves the stripped text alone if and only if a marker already hides it |
| DigestView.SystemViewCases | domain/contract.go:237-271 | A twice-stripped system message is cut at the earlier of its markers |
| DigestView.SystemAppend | domain/contract.go:237-271 | The same equivalence for twice-stripped text |
| DigestView.CanonicalRewrite | domain/contract.go:237-300 | A rewrite of the two prompt surfaces keeps the whole digested tree if and only if it keeps what the digest sees of each surface |
| DigestView.CanonicalRewrites | domain/contract.go:273-300 | Two rewrites that look the same to the digest on both surfaces give the same digested tree |
| DigestPaths.KeysReach | domain/contract.go:32-60 | At every object a key reaches the digested tree if and only if it has no leading underscore and is none of the nine excluded ones, named one by one |
| DigestPaths.KnobsNeverMove | domain/contract.go:237-271 | Setting or removing any of those keys never moves the tree of an object |
| DigestPaths.TreeShows | domain/contract.go:237-300 | What the digested tree shows at any path: nothing behind an excluded key, a stripped text (stripped twice as the content of a system message), and any other scalar or length as it is |
| DigestPaths.TreesAgree | domain/contract.go:237-300 | Two documents have one digested tree if and only if they show the same at every path |
| DigestPaths.LockedPlacesCovered | domain/contract.go:32-40 | Documents with one digested tree agree at every locked place and below it, up to what stripping takes away |
| Contract.RstripSystemPromptSurfaces | domain/contract.go:302-337 | The in-place trim reports a change exactly when the document changed, and changes exactly the surfaces without a heading |
| Contract.StampedHash | domain/contract.go:80-106 | The loops over the document and its two wrappers find the first real stamp, of the contract before the two hash keys |
| Contract.HealDrift | domain/contract.go:143-165 | The healing, step by step, is the specified one |
| Contract.StripMarkers | domain/contract.go:224-235 | The loop over the two markers cuts at the scope brief if there is one, and else at the mini schema |
| BagB.InjectKeepsCanonical | application/control_plane_inject.go:453-476 | Injection keeps the digested tree if and only if nothing is injected, or every surface it appends to has a marker behind which the digest does not look |
| BagB.InjectIdempotent | application/control_plane_inject.go:453-476 | A second injection returns its input, on every document |
| BagB.InjectSettles | application/control_plane_inject.go:388-400 | After a pass no splice is needed any more |
| BagB.BlockOpens | application/control_plane_inject.go:247-371 | Every rendered inject block is blank or opens with a heading line of its own that holds no marker |
| BagB.SpliceIsAppend | application/control_plane_inject.go:233-245 | The splice is an append of a trimmed block behind a blank line, or nothing |
| ControlPlane.SpliceChatReqInPlace | application/control_plane_inject.go:402-420 | The in-place splice rewrites exactly the two prompt surfaces |
| ControlPlane.InjectBagBInPlace | application/control_plane_inject.go:453-476 | Splicing block and policy one after the other, each when needed on the input, is the injection |
| ControlPlane.InjectBlock | application/control_plane_inject.go:353-371 | Company, settings, rules and output request, rendered line by line and joined where they are not empty |
| ControlPlane.CutScopeBrief | domain/catalog.go:251-272 | The brief is cut from the message before the instructions |
| ControlPlane.MergeScopeBriefInPlace | domain/catalog.go:275-300 | The in-place merge writes only surfaces without a heading and leaves an empty system prompt alone |
| ControlPlane.EnsureScopeBriefLoop | application/catalog_brief.go:88-128 | The loop over live modes merges the first brief found, and none into a catalog that has one |
| InjectProof.SlicesStable | domain/inject.go:30-66 | The mini and brief slices survive a splice if and only if they were not closed by a bare heading mark (or the brief ends at the mini schema before) |
| InjectProof.BareLineUnstable | domain/inject.go:30-66 | A concrete text whose mini slice changes under the splice of any block with a heading of its own |
| InjectProof.ExtractMarkdownSection | domain/inject.go:49-66 | The section of a text is cut from the first heading to the next section and trimmed of breaks; without the heading it is empty |
| InjectProof.SectionOf | domain/inject.go:49-66 | The line loop cuts from the heading line to the next section and trims breaks |
| InjectProof.SectionAlike | domain/inject.go:49-66 | A section of spliced text is the old section up to blank ends, unless it regains a bare line |
| ToolTrail.UpsertReplaces | domain/tool_trail.go:147-165 | Upserting a trail and then another leaves what the second alone would leave, on any content |
| ToolTrail.OnlyLastTrail | domain/tool_trail.go:147-165 | After any number of rounds the system text is the original one with the last trail only |
| ToolTrail.RenderedIsHeaded | domain/tool_trail.go:102-143 | A rendered trail is empty exactly when there is nothing to show, and otherwise opens with the trail heading |
| ToolTrail.TrailEntryFromHop | domain/tool_trail.go:50-99 | The entry of a hop has its number, its outcome, and every other key exactly when there is something to say |
| ToolTrail.HintSays | domain/tool_trail.go:16-48 | Exactly when a hop is called empty, a success, to be retried later, or not to be retried |
| ToolTrail.RenderTrailInjectLoop | domain/tool_trail.go:102-143 | The loop renders one line for each of the first entries, up to the limit |
| ToolTrail.UpsertTrailOnSystem | domain/tool_trail.go:147-165 | Only the first message changes, only when it is a system message, and only in its content |
| Hooks.FlagAndScoreAgree | application/middleware.go:188-251 | In every reachable state the refusal flag is up exactly when the score is at least 0.85; the score stays in [0, 1]; flag, score and the duplicate-free hits only grow |
| Hooks.FoldAllHeeds | application/middleware.go:377-393 | The flag is up after a reply exactly when it was up before or one of the parts is an alarm |
| Hooks.CollapseHits | security/jailbreak.go:205-235 | One hit per id, the best of its id, in first-seen order; the score is the capped maximum and decides the refusal |
| Hooks.MiddlewareContext.FoldAssessment | application/middleware.go:188-220 | The fields after folding are the fold of the old ones |
| Hooks.MiddlewareContext.OnTurnStart | application/middleware.go:336-373 | The fields after turn start are those of the specification |
| Hooks.MiddlewareContext.AfterLLM | application/middleware.go:377-393 | The content and then every call's raw arguments are assessed and folded, in order |
| Hooks.MiddlewareContext.BeforeCall | application/middleware.go:395-424 | A verb of the denied list, or outside a catalog that lists verbs, is noted once and lifts the score to at least 0.6; any other verb leaves the context as it was |
| Hooks.MiddlewareContext.AfterCall | application/middleware.go:426-440 | A body that must be refused is replaced by the untrusted-payload text |
| Policy.ForcedRefusal | domain/policy.go:123-167 | When exactly a refusal or an error is forced; an answer needs a valid return and no raised flag |
| Policy.UnforcedPolicy | domain/policy.go:123-167 | Without a forced outcome the model's action decides if it is one of the four, else open parts ask back, else it is an answer; the reason names the row |
| Policy.UnforcedAnswer | application/agent_turn.go:680-808 | Without a forced outcome a visible answer stands, except that a clarification asks its question, and a blank one gives way to the text of the policy |
| Policy.TokenNeverShows | application/agent_turn.go:754-808 | An answer that leaves the turn names the scrubbed token only if it is the model's own summary |
| Policy.ForcedAnswerIsIndependent | application/agent_turn.go:680-808 | Under a forced refusal or error the answer that leaves the turn does not depend on the model's text: it is the summary of the model's return exactly when that came with the action "refuse" or the configured text names the scrubbed token, and else the configured or default text up to the token |
| Policy.RefusalSpeaksSummary | domain/policy.go:88-119 | A return with the action "refuse" speaks its summary whatever the hooks refuse |
| Policy.ForcedTextDiffers | domain/policy.go:88-119 | Returns that do not carry their summary cannot be told apart by the forced answer; one that does can, unless its summary is that very text |
| Policy.FlagsNeverClear | domain/policy.go:62-75 | Over a conversation a sticky flag is up exactly when it was up before or some turn raised it |
| Policy.StickyOrFlagsLoop | domain/policy.go:62-75 | Filling the flags in any key order gives the union of the raised ones |
| AgentTurn.RunAgentTurn | application/agent_turn.go:229-808 | For every world: bounds on rounds, requests and verb calls; no round and no verb call after the flag is raised; every alarm raises it and nothing else does; a raised turn that reaches the policy stage ends refused with the forced answer; a turn that used every round reports so exactly with the flag down, and is refused by the hooks' own layer if its answer is an alarm; verbs sent are allowed ones; no request to the model carries the body of a reply that raised an alarm, nor more than one trail, nor an unanswered call of the first eight; one hop per verb call and one trail entry per hop; the answer is scrubbed; every verb that goes out is outside the denied list and inside a catalog that lists verbs; the answer that goes into the policy stage is, exit by exit, what the model or the server said last (a direct one is the trimmed content of the last reply, which had no calls); and the whole result is that of the reference turn |
| TurnLaws.RoundsEnd | application/agent_turn.go:427-619 | How the rounds end: directly with the content of the last reply, with the summary and the full return of its tools, with the insight or else that summary, or with its last argument on data |
| TurnLaws.ToolsTell | application/agent_turn.go:1064-1264 | Exactly the permitted calls that are no return calls go out until an alarm is raised; the summary of a round is its first one from the last return call on, its return the last full one, its argument the last visible one; it has ended the turn, or brought data, exactly when one of its calls did |
| TurnLaws.PipelineSummary | application/agent_turn.go:1608-1618 | The first visible of summary, answer and message of the body, and of the summary argument |
| TurnLaws.FourFields | application/agent_turn.go:1220-1262 | A finished pipeline is a full return exactly when each of the four fields is in its arguments or its body |
| TurnLaws.NoData | application/agent_turn.go:1573-1601 | Which data counts as none; the first row key that is there decides |
| AgentTurn.RefusedOutOfRounds | application/agent_turn.go:614-715 | A turn of any number of rounds that reports running out of them and yet answers the refusal text |
| AgentTurn.EndTurn | application/agent_turn.go:629-715 | The policy stage refuses when the flag was up or the answer is an alarm, and its status follows exit and policy |
| AgentTurn.HookReply | application/agent_turn.go:477-482 | A reply raises the flag exactly when its content or some call's raw arguments are an alarm |
| AgentTurn.ErrorTextIsNotJudged | application/agent_turn.go:1150-1162 | Whether a reply is an alarm does not depend on its error text, which is what the model gets when there is no body |
| Bag.NinthIsUnanswered | application/agent_turn.go:1068-1071 | Answers to the first eight calls answer all exactly when no live call comes later |
| AgentTurn.PlayRounds | application/agent_turn.go:427-619 | The loop leaves with an exit, aborts, or has played every round with the flag down and no return seen; the latter if the model asks for nothing |
| AgentTurn.PlayRound | application/agent_turn.go:427-619 | A round begins with the flag down, costs one request (two with the insight) and at most eight verb calls, goes on only with the flag down and every call answered, and leaves everything as the reference round does |
| AgentTurn.ExecuteToolCalls | application/agent_turn.go:1064-1264 | Appends one tool message per non-nil call of the first eight, in order, under its name and id; executed = with data + empty = hops = verb calls |
| AgentTurn.CallHop | application/agent_turn.go:1126-1219 | A hop happens only for an allowed verb with the flag down; an alarming body raises the flag before anything else happens; the run, the outcome and the hooks are those of the reference |
| AgentTurn.OneCall | application/agent_turn.go:1072-1125 | Return, denied and refused calls get their tool message without a verb call |
| AgentTurn.InsightHop | application/agent_turn.go:1266-1297 | One more request on fully answered calls; the flag does not move |
| AgentTurn.Conclude | application/agent_turn.go:629-808 | The policy stage forces a refusal when the flag was up or the answer is an alarm, on the model's layer or else on its own, and the answer is the scrubbed one of that decision |
| Bag.TrailKeeps | application/agent_turn.go:444-449 | Splicing the trail keeps everything behind the system message and leaves at most one trail on it |
| Bag.DisciplinedConcat | application/agent_turn.go:505-540 | Message lists with answered calls can be appended to one another |
| Bag.DisciplinedRound | application/agent_turn.go:505-540 | An assistant message with its answers is a disciplined block |
| JobRuntime.Invariant | adapters/jobsfake/runtime.go:138-225 | Under every interleaving: log, snapshot and local state of each run fit together at every point |
| JobLaws.LogsNumbered | adapters/jobsfake/runtime.go:116-129 | The numbers of every log are exactly 1, 2, ... in order |
| JobLaws.LogsGrow | adapters/jobsfake/runtime.go:116-129 | Logs are append-only and cancel flags stay up |
| JobLaws.RunRemembers | adapters/jobsfake/runtime.go:138-205 | Over every run, the units are those it was started on and the results those that the host returned, in order |
| JobLaws.StopsCalling | adapters/jobsfake/runtime.go:163-170 | A run that is told to stop calls at most one more unit |
| JobLaws.StopIsAnnounced | adapters/jobsfake/runtime.go:163-209 | A run that is told to stop before its last reading announces "cancelled", whatever its units answered |
| JobLaws.CancelIsSticky | adapters/jobsfake/runtime.go:270-297 | After a cancel every later Get reports "cancelled", even if the run was about to settle |
| JobLaws.ReturnedRun | adapters/jobsfake/runtime.go:138-225 | A returned run leaves one started and one finished event; its summaries are, field by field, the answers to the first of the units it was started on; a status other than "cancelled" means that every unit answered and classifies the statuses that the summaries show, and so does the status announced |
| JobLaws.PartialExactly | adapters/jobsfake/runtime.go:208-225 | From the closing block on, every Get says partial if and only if the run announced "partial" and nobody had cancelled the job by then |
| JobLaws.FailedRun | adapters/jobsfake/runtime.go:154-182 | A run that ended in a host error stays so: every later Get says "running" or "cancelled", without summaries, and no finished event comes |
| JobLaws.NoHostFails | adapters/jobsfake/runtime.go:157-160 | Without a unit runner a run with units calls none and fails as soon as it has begun |
| JobLaws.AnnouncedStatusStays | adapters/jobsfake/runtime.go:208-225 | The announced status is the one that Get shows if and only if it was "cancelled" itself or nobody ever cancelled the job |
| JobLaws.AnnouncedOkTurned | adapters/jobsfake/runtime.go:208-225 | Every run can go on to one that announces "ok" and then shows "cancelled" |
| JobStore.Runtime.RegisterJob | adapters/jobsfake/runtime.go:150-155 | A new job is running, with an empty log and no cancel |
| JobStore.Runtime.WatchSorted | adapters/jobsma/runtime.go:305-331 | The events above the cursor, each once, ordered by number |
| JobStore.Runtime.Emit | adapters/jobsfake/runtime.go:116-129 | The event is numbered one past the log and appended to it |
| JobStore.Runtime.Finish | adapters/jobsfake/runtime.go:210-222 | The closing block writes the snapshot; an earlier cancel wins and decides the partial flag as well |
| JobStore.Runtime.Cancel | adapters/jobsfake/runtime.go:270-297 | A known job is marked and its snapshot keeps all but the status; an unknown one is an error |
| JobStore.Runtime.Watch | adapters/jobsfake/runtime.go:228-253 | The events above the cursor in log order; None for an unknown job |
| JobStore.Runtime.FinishOutcome | adapters/jobsma/runtime.go:201-233 | The snapshot of an engine's outcome, with the last recorded number |
| EngineJobs.CancelIsSticky | adapters/jobsma/runtime.go:201-233 | Cancellation is sticky around an outside engine as well |
| EngineJobs.LockedReadDecides | adapters/jobsma/runtime.go:201-233 | The snapshot is decided by the flag under the lock alone; a cancelled job is never partial; "ok" needs a whole success |
| JobWire.WireRoundTrip | adapters/jobshttp/wire.go:108-217 | Reading a printed event gives its normal form if it is well typed, and an error otherwise |
| JobWire.WireIdentity | adapters/jobshttp/wire.go:108-217 | The round trip is the identity exactly on well-typed normal forms |
| JobWire.ZeroIsLost | adapters/jobshttp/wire.go:108-217 | A concrete payload with a zero percentage that does not come back |
| JobWire.NormalIsNormal | adapters/jobshttp/wire.go:183-217 | Normalising is idempotent and keeps typing |
| JobWire.NumericStamps | adapters/jobshttp/wire.go:57-89 | A number of milliseconds reads as itself if and only if it is above ten to the twelfth or below ten to the eleventh; in between it is taken for seconds |
| JobWire.TurnedDown | adapters/jobshttp/wire.go:108-170 | Exactly which objects are turned down: those in which some key has a value of another type |
| JobWire.PayloadKeys | adapters/jobshttp/wire.go:120-170 | What becomes payload, key by key |
| JobWire.SignedWraps | adapters/jobshttp/wire.go:108-180 | An unsigned sequence number lands on the signed one congruent to it |
| JobWire.EventToWire | adapters/jobshttp/wire.go:183-217 | Moving the lifted keys one by one gives head, lifted keys and the residual as extra |
| JobWire.PayloadLoop | adapters/jobshttp/wire.go:120-170 | Filling the payload in any key order gives the extra keys, or the keys that are not fixed, plus missing non-zero lifted ones |
| Sse.ReadBack | adapters/jobshttp/sse.go:23-74 | Reading any sequence of written frames and data-free lines gives the normal forms of the events in order, and fails exactly when an event is not well typed or a line is too long; the codec need only carry the framed events |
| Sse.CodecFor | adapters/jobshttp/wire.go:219-243 | For any documents there is a codec that carries them |
| Sse.ReadSSEEvents | adapters/jobshttp/sse.go:23-61 | The scanner loop computes the line-by-line specification |
| Sse.OneLineTypeIsSafe | adapters/jobshttp/sse.go:63-74 | A type without a line break opens no data line |
| Decimal.ItoaBack | adapters/jobshttp/handler.go:44-54 | A cursor printed as text reads back as itself |
| Decimal.AtoiReads | adapters/jobshttp/handler.go:44-54 | A sign is read, and what is no number reads as zero |
| JobWatch.ResumeExact | adapters/jobsfake/runtime.go:228-253 | Resuming at b sees together what one later read sees, in log order, if and only if nothing logged meanwhile is numbered in the stretch passed |
| JobWatch.LateNumberIsLost | adapters/jobsfake/runtime.go:228-253 | A concrete log on which resuming loses an event |
| JobWatch.ResumeSorted | adapters/jobsma/runtime.go:305-331 | For reads ordered by number, on any log: reading on from the last number seen makes up one ordered read of everything under exactly that condition |
| JobWatch.ResumeSortedExact | adapters/jobsma/runtime.go:305-331 | With distinct numbers the two reads are then, and only then, the later read itself |
| JobWatch.RunsCanBeSent | adapters/jobsfake/runtime.go:116-129 | Every log of every run of the job runtime can be sent: some codec carries it and every line fits |
| JobWatch.ResumeNumbered | adapters/jobsfake/runtime.go:228-253 | On numbered append-only logs resuming loses and repeats nothing |
| JobWatch.ResumeInProcess | adapters/jobsfake/runtime.go:228-253 | The resume law at any two moments of any run of the job runtime |
| JobWatch.HttpRefinesWatch | adapters/jobshttp/client.go:127-198 | The watch over HTTP gives the normal forms of the in-process watch, for every log that the codec carries |
| JobWatch.ResumeOverHttp | adapters/jobshttp/client.go:127-198 | The resume law through handler, wire and client |
| JobWatch.ServeFeed | adapters/jobshttp/handler.go:72-115 | A known job is served as the frames above the cursor and a closing comment, an unknown one as 404 |
| JobWatch.CursorSent | adapters/jobshttp/handler.go:44-54 | The cursor of the query counts before that of the header, and without either the watch begins at the start |
| JobWatch.ReadFeed | adapters/jobshttp/client.go:181-198 | The client keeps the events above its cursor |
| TokenBucket.LevelIsLeastHeadroom | observability/rate_limit.go:34-55 | The level a call is decided on is the minimum, over all earlier window starts, of capacity plus refill minus admitted |
| TokenBucket.AdmitsExactly | observability/rate_limit.go:34-55 | A call passes exactly when every window ending with it stays within capacity plus refill |
| TokenBucket.WindowBound | observability/rate_limit.go:34-55 | Whatever the clock does, no window admits more than capacity plus the refill over its forward clock steps |
| TokenBucket.WallClockBoundExact | observability/rate_limit.go:34-55 | Over given stamps, every run admits in a window at most capacity plus refill over its wall-clock length if and only if the capped refills inside the window are worth no more than that length |
| TokenBucket.SortedGain | observability/rate_limit.go:45-49 | Stamps in order inside the window meet that condition |
| TokenBucket.OrderedWindowBound | observability/rate_limit.go:34-55 | A window with ordered stamps keeps the bound over its wall-clock length, whatever came before it and with calls of no cost in between |
| TokenBucket.WindowLength | observability/rate_limit.go:45-49 | Refill time is wall-clock length plus the steps back inside the window |
| TokenBucket.OutOfOrderExceeds | observability/rate_limit.go:34-55 | A concrete run that exceeds the wall-clock bound with an early stamp |
| TokenBucket.Bucket.Allow | observability/rate_limit.go:34-55 | The fields after a call are those of the specification |
| TokenBucket.NewTokenBucket | observability/rate_limit.go:21-31 | A rate or capacity that is not positive makes no bucket; otherwise a full one |
| TokenBucket.SurfacesIndependent | observability/rate_limit.go:57-97 | A surface answers as if only its own operations had happened |
| TokenBucket.Limiter.Allow | observability/rate_limit.go:84-97 | A surface without a bucket passes; otherwise only its bucket changes |
| TokenBucket.Limiter.Configure | observability/rate_limit.go:68-82 | A valid configuration installs a fresh full bucket, any other changes nothing |
| AuthCache.NeverIdle | adapters/zeushttp/auth.go:403-426 | Every hit reaches the server less than the idle TTL after some earlier use of its session, in whatever order hits arrive within the margin |
| AuthCache.HitsMatchMint | adapters/zeushttp/auth.go:403-426 | Every hit has key and password of its mint and is strictly before the hard deadline |
| AuthCache.MarginIsExact | adapters/zeushttp/auth.go:413-419 | With any delay above the margin a hit can come after the TTL |
| AuthCache.HardDeadlineHasNoMargin | adapters/zeushttp/auth.go:410-412 | A hit right before the deadline may arrive after it |
| AuthCache.Resolver.ResolveBasic | adapters/zeushttp/auth.go:256-374 | A hit is served and touched; a miss or a forced resolve mints and stores, unless closed or failed |
| AuthCache.Resolver.CacheHit | adapters/zeushttp/auth.go:403-426 | Which entry serves, and that it is touched |
| AuthCache.Resolver.ResolveAuth | adapters/zeushttp/auth.go:103-143 | A closed resolver refuses before anything else; only the basic mode with complete credentials looks at the cache; the others give what is stored for them |
| AuthCache.DoWithRemint | adapters/zeushttp/auth.go:182-208 | Exactly when no hop is made, when a second one is, and with which authentication each is; never more than two |
| RetryLoop.Complete | adapters/llmopenai/client.go:185-255 | At most MaxAttempts retries, total wait within a positive budget; every retry came after a response that was retryable, with exactly the planned wait, which the budget allowed, and with nobody stopping the call; a raised retryable failure means that the budget refused, and the call is stopped exactly when somebody stopped it |
| RetryLoop.BackoffMs | adapters/llmopenai/client.go:479-504 | The delay is never negative nor above a set cap, equals the plan without jitter, and lies between half and whole of it with jitter |
| RetryLoop.PlannedGrows | adapters/llmopenai/client.go:479-504 | Planned delays never shrink from attempt to attempt and stop growing at the sixteenth |
| RetryLoop.PlannedDoubles | adapters/llmopenai/client.go:479-504 | The planned delay begins at the base, doubles from attempt to attempt up to the sixteenth, is the header's when there is one, and is capped |
| RetryLoop.WhatMayRetry | adapters/llmopenai/client.go:185-255 | A transport failure may be tried again unless it was cancelled, a received failure exactly when its own status and text are retryable |
| RetryLoop.ClassesExactly | domain/llm_classify.go:186-240 | For every class, exactly which failures belong to it |
| RetryLoop.CallStartsAfresh | domain/llm_classify.go:60-80 | A call begins with nothing used and with the configured limits or their defaults |
| RetryLoop.RetryableHttp | domain/llm_classify.go:158-240 | Exactly which HTTP failures may be retried; an exhausted quota is never a rate limit |
| RetryLoop.RetryBudget.Allow | domain/llm_classify.go:83-97 | When another retry is allowed |
| RetryLoop.RetryBudget.Consume | domain/llm_classify.go:100-108 | What one retry uses up |
| SessionRounds.RoundsConsecutive | application/session_lifecycle.go:109-415 | Over every run on a lossy network, with sessions dying and deltas empty, the accepted rounds of a session are start + 1, start + 2, ... without gap or repeat |
| SessionRounds.SetupInStep | application/session_lifecycle.go:109-206 | A session handle that comes out of a set-up names a live session and will claim the round the server expects |
| SessionRounds.SetupCases | application/session_lifecycle.go:109-303 | The whole outcome of a set-up, case by case: handle, id, round, mode and flags, and what the server then has |
| SessionRounds.ModeSwitchStartsAnew | application/session_lifecycle.go:158-164 | A session that is taken up again had no mode or the one asked for; from another mode the turn comes out with the session just minted, or with none and an error |
| SessionRounds.CommitCases | application/session_lifecycle.go:307-415 | The whole outcome of a commit, case by case |
| SessionRounds.JsonIntReads | application/session_lifecycle.go:417-449 | How a round is read: a number or digits as they are, zero and anything else as the default |
| SessionRounds.CommitKeeps | application/session_lifecycle.go:307-415 | A commit on such a handle keeps the count |
| SessionRounds.IdsAreMinted | application/session_lifecycle.go:109-303 | The id that comes back is the prior one known alive, the one just minted, or none |
| SessionRounds.DeadIsReplaced | application/session_lifecycle.go:160-206 | A dead or unknown id leads to a fresh id or to an error |
| SessionRounds.SecondCommitRepeats | application/session_lifecycle.go:307-415 | Two commits on one set-up always make the server accept a round twice |
| SessionRounds.ZeroRoundRepeats | application/session_lifecycle.go:417-449 | A run in which a server that counts from zero is claimed one round twice, whatever the mode and the turns sent |
| SessionRounds.FilterDelta | application/session_lifecycle.go:325-342 | The first commit after a create leaves out user messages, any other none |
| Journal.JournalsWellFormed | domain/journal/spans.go:69-127 | Every journal that tracers with fresh ids write starts each id once and never a parent at or after its child |
| Journal.FilterKeeps | domain/journal/export.go:121-152 | The rows of one turn are exactly its rows, and well formed again |
| Journal.SpanTracer.Start | domain/journal/spans.go:69-96 | The new span links to the given parent or else to the innermost open one, and both journal and stack grow by it |
| Journal.SpanTracer.End | domain/journal/spans.go:99-127 | The top goes if it is the span, else the span's first occurrence; the others stay, and the end is journalled |
| Journal.StacksHaveNoRepeats | domain/journal/spans.go:69-127 | In every run the open spans of a tracer are distinct and were started, so ending one closes it and nothing else |
| Journal.StepsAreTraced | domain/journal/spans.go:69-127 | A step of a run does to journal and stack what the tracer does, and leaves other tracers alone |
| SpanForest.SpanTree | application/debug_export.go:89-176 | The forest of a turn shows each span started in it exactly once and nothing else; children hang below their parents; roots are exactly the spans whose parent did not start in it |
| SpanForest.WellFormedOrdered | application/debug_export.go:89-176 | Start order increases along edges, which is why nesting ends |
| SpanForest.SpanShows | application/debug_export.go:89-146 | What a span shows of its start and its last end, and which name |
| SpanForest.CountIsHits | application/debug_export.go:161-175 | A nested forest shows a span as often as it lies under the listed ones |
| SpanForest.Group | application/debug_export.go:148-160 | Grouping in any node order lists each node once, as a root or under its parent |
| TracePosts.NormalizeHops | application/projectors/session_trace.go:200-216 | One normalized hop per non-blank id, the first of its id, in first-seen order |
| TracePosts.NormalizedHop | application/projectors/session_trace.go:106-198 | Reading a hop key by key, or item by item, gives its normal form |
| TracePosts.StatusMeans | application/projectors/session_trace.go:89-103 | Exactly which statuses count as success and which values as set |
| TracePosts.HopScore | application/projectors/session_trace.go:251-283 | The score of a hop, fact by fact |
| TracePosts.OrderIsTotal | application/projectors/session_trace.go:286-303 | The field-by-field order is the total order of one weight |
| TracePosts.SelectPrimary | application/projectors/session_trace.go:307-326 | The primary hop is the earliest of the best |
| TracePosts.OrderedReqIds | application/projectors/session_trace.go:535-554 | Secondaries in first-seen order and the primary last; exactly the non-blank ids, each once |
| TracePosts.Aggregate | application/projectors/session_trace.go:397-445 | The aggregate names the primary id, and an error exactly when some hop failed |
| TracePosts.PrimaryAgrees | application/projectors/session_trace.go:307-326 | The aggregate and the order of posts select one and the same primary |
| TracePosts.PrimaryUnique | application/projectors/session_trace.go:307-326 | There is at most one earliest best hop |
| TracePosts.PostsArePermutation | application/projectors/session_trace.go:535-554 | The order of posts is a duplicate-free permutation of the ids |
| TracePosts.ProjectSessionTrace | application/projectors/session_trace.go:681-803 | Each id is tried once in order, the aggregate's primary last; posts plus errors is the number of ids; the errors are those not accepted |
| TracePosts.ResultSizeOf | application/projectors/session_trace.go:218-249 | The size is the hop's own, or the sum over the steps that state one |
| CatalogNames.ScopeRoundTrip | domain/catalog.go:45-64 | The directory name reads back if and only if the bucket has no double or trailing underscore and the scope is empty or properly underscored |
| CatalogNames.SubdirsCollide | domain/catalog.go:45-51 | Scopes of buckets without a double or a trailing underscore share a directory if and only if they are of one bucket and differ at most by a leading underscore |
| CatalogNames.SubdirsCollideAnywhere | domain/catalog.go:45-51 | For any buckets: exactly when the rest of the longer bucket moves over into the tail |
| CatalogNames.OtherBucketsCollide | domain/catalog.go:45-51 | Two different buckets, one with a double underscore, that share a directory |
| CatalogNames.FileRoundTrip | domain/catalog.go:67-135 | A written name reads back as the mode and base id given if and only if both are trimmed and there, the base id is one and no later part of it reads like another, and neither has a slash or a line break |
| CatalogNames.InnerBaseMoves | domain/catalog.go:67-135 | A concrete base id with another one inside that does not read back |
| CatalogNames.NamesReadBack | domain/catalog.go:93-152 | The three names listed for a mode read back as the mode, each exactly under its own condition, and those of the default mode always |
| CatalogNames.NamesListed | domain/catalog.go:93-122 | Which names are looked for, and in which order; none for a mode that is no plain file name |
| CatalogNames.BaseIds | domain/catalog.go:20-20 | What counts as a base id |
| CatalogMemo.ResolveCatalogPath | domain/catalog.go:225-248 | The nested loops return the first existing candidate |
| CatalogMemo.ResolveIsFirst | domain/catalog.go:225-248 | The resolved candidate exists and none before it does |
| CatalogMemo.SavedIsResolved | adapters/catalogfs/store.go:147-163 | What was saved for a scope under a mode with file names resolves. In general, unless the bundled directory happens to hold the very path, it resolves if and only if the mode has file names and there is a scope, or the cleaned path is that of the same name in the user directory, or in min with no candidate before it |
| CatalogMemo.FlatIsLost | adapters/catalogfs/store.go:147-163 | Without a slash in the key the path is never one of those, so that without a bucket or a scope nothing saved resolves |
| CatalogMemo.RootScopeResolves | adapters/catalogfs/store.go:147-163 | What is saved without a bucket or a scope in a directory that cleans to the user directory resolves |
| CatalogMemo.SlashedScopeIsRoot | domain/catalog.go:45-51 | The scope "/.." without a bucket has such a directory, under every user directory |
| CatalogMemo.HitIsCoherent | api/catalog.go:182-309 | Over every run, a hit returns what the file at its path now says; it equals an uncached load if and only if that path still resolves and the sibling schema reads the same |
| CatalogMemo.MemoKeyInjective | api/catalog.go:178-180 | Keys without NUL characters never share an entry |
| CatalogMemo.RacingWriteIsStale | api/catalog.go:203-221 | A write between read and look is remembered as if it had been read |
| CatalogMemo.CatalogApi.Load | api/catalog.go:247-309 | A hit leaves the memo alone; a miss returns the uncached load and remembers a success with the later modification time |
| CatalogMemo.CatalogApi.CacheHit | api/catalog.go:182-201 | A fresh entry is served, a stale one dropped |

## Left out

- JobWire.WireRoundTrip: does not model the case-insensitive key match of the JSON decoder, so objects from other writers with keys in another case read differently; numbers are compared by value, without the width of a float.
- TokenBucket.AdmitsExactly: is over exact reals, without the rounding of floats; the same holds for TTLs and the jitter factor, and integers of the backoff do not overflow.
- AgentTurn.RunAgentTurn: runs with the default chain of one security hook; custom middlewares, their panics and rewritten arguments are not modelled.
- SpanForest.SpanTree: lists roots and children in an unspecified order, as iterating a map does.
- SessionRounds.RoundsConsecutive: takes turns on one session one after the other; two turns that interleave set-up and commit on one session are the repeated-commit case. A closed client or a cancelled context, which ends either call before any request, is not modelled.
- CatalogMemo.HitIsCoherent: treats a decoded catalog and a sibling schema as values of given functions.
- Digests, JSON text, timestamps, id minting, regular-expression catalogues, the return parser, truncation and clipping of texts are arguments or given functions; only the laws a statement names are assumed of them.
- Documents are values: a nil map and an empty one are not told apart, except where an absent key matters; aliasing is modelled for the trail's message maps only.
- The policy sentence, the word limit of the company context and the validation of output requests; `RenderRulesBlock` and `RenderOutputRequestBlock` get their fields sorted.
- Texts are sequences of characters; invalid UTF-8, and byte against character counts in the scanner's line limit, are not modelled.
- Notes, steps, usage, logs, headers and telemetry of turns, sessions and hops; the contract status that a session handle carries.
- HTTP clients, TLS, URL building and the secret store; symbolic links in paths; the wording of authentication errors; the job HTTP client's other methods.
- The worker pool of the outside job engine, its epochs and its store.
- Payload blobs, redaction, the Mermaid rendering and the Detective markdown of exports.
- The parsing of brief scopes and entity types out of inject slices, and the listing of catalog directories.
- Configuration loading, profiles, the conformance runner and facade getters, which would only add easy members.
