# havuz: what a pooled client may rely on

havuz is a PostgreSQL pooler. Its promise is that a client moved between shared backends cannot
tell it from a private connection. This project models the code that promise rests on, proves the
conditions under which the promise is kept, and gives a run or a text for each way found in which it
is not. The first section below lists those ways.

* **Prepared statements** (`Prepared`, `Statements`, `PreparedRelay`, `PreparedWire`, `PreparedOrder`,
  `PreparedRetry`, `PreparedRuns`, `PreparedOwn`; runs in `PreparedSteps`, `PreparedExamples`, `PreparedReplies`, `PreparedLossy`).
  Clients keep their own names; backends share statements under global names in a bounded
  first-in-first-out cache. Any number of clients and backends, taking Parse, Bind, Describe, Close,
  eviction, replay, reset and retry steps in any order, are compared with clients that each have a
  server of their own: what the server does with a message, with which portal, formats and values, and which of its replies are still on the
  line when the client reads it. A retry replays the whole buffered exchange on another backend, from
  the table its first pass left behind.
* **Session parameters** (`Params`, `Spellings`, `Openers`, `Delta`, `Sync`, `Options`, `ClientSettings`, `Verbs`,
  `ParamRuns`; runs in `ParamExamples`, `ParamLeaks`, `ReadOnlyHole`). SETs are staged when they are sent or parsed,
  believed or dropped, and carried onto the next backend as a text batch of the difference. Any run is
  compared with private connections, down to the text: which parameter each spelling of SET and RESET
  names, and which spellings a read-only session may not send, is fixed on literal texts; the batch is split and classified by the same
  scanner that reads a client's own SQL, and the server runs it statement by statement, with what
  BEGIN, COMMIT and ROLLBACK do to parameters.
* **SQL scanners** (`Scanner`, `Literals`, `Routing`, `Replicas`, `Rewrite`, `Placeholders`, `JdbcBind`,
  `JdbcSession`). Index loops over text
  with nested comments, doubled quotes and dollar quotes, each shown equal to a one-token-at-a-time
  reading, and laws about those readings: what is code, where a batch may run, and that turning
  `$n` into `?` keeps the meaning of a statement and its values.
* **Codecs, routing table and registries** (`Wire`, `Utf8`, `Protocol`, `Frames`, `Listeners`, `Admin`, `Cancel`).

`Text` holds shared string helpers. Text is a sequence of Unicode scalar values; every delimiter the
scanners look for is ASCII, so this is the same scan as the one over UTF-8 bytes, and where the code
pushes bytes as characters (`strip_literals`) the bytes are modelled. What a quote, a
dollar quote, a comment, a placeholder, a message or a name looks like is given apart from the scanners,
by writing it down (`Literals`, `Placeholders`, `Spellings`, `Verbs`, `Frames`, `Utf8`) and proving that
what was written is what is read.

## Where the code does not keep the promise

Each of these comes with a concrete run or text, and with the condition under which the promise does
hold.

* A Parse that havuz replays, and a Close it sends to free or evict a name, read the line up to the first
  reply of the kind they wait for and drop what comes before it, the answers to earlier messages of the
  same exchange included (`PreparedReplies.ReplaySwallowsAnswers`, `PreparedReplies.FreeSwallowsAnswer`);
  an earlier error is taken for a rejected replay and ends the session
  (`PreparedReplies.EarlierErrorKillsSession`). A message havuz refuses is answered at once, ahead of the
  answers that wait (`PreparedReplies.RefusalOvertakes`). On every run a client reads its answers, in
  order and nothing else, exactly when its line was finished when it was taken, every refusal finds
  nothing waiting, and every message of havuz's own finds nothing waiting but replies like the one it
  waits for (`PreparedRuns.AnswersReachIff`, `PreparedOrder.StraightIff`). The one case in which this
  does not decide is named under "Left out".
* A refusal brings a ReadyForQuery of its own, and the exchange goes on: one Sync, two ReadyForQuery
  (`PreparedReplies.RefusalEndsTwice`).
* After an error the server ignores messages until Sync and havuz does not: a statement parsed there
  enters the cache and is not on the server, and a neighbour finds it missing
  (`PreparedReplies.ParseAfterErrorHurtsNeighbour`, `PreparedReplies.SkippedParseIff`).
* The name of a Parse that fails on the server stays in the cache, with the same effect on the neighbour
  (`PreparedReplies.FailedParseHurtsNeighbour`, `PreparedReplies.FailedParseIff`).
* A client that leaves in the middle of an exchange, and a retry that ends a session, give the backend
  back with replies on its line (`PreparedReplies.LeavingHandsOnReplies`,
  `PreparedReplies.EndedRetryHandsOnReplies`). Runs on which neither this nor the two failures before it
  happen are called orderly (`PreparedRuns.Orderly`).
* A retried exchange looks its names up in the table its own first pass has changed: after Bind then
  Parse of one name the other statement runs, after Bind then Close the session ends, and an unnamed
  statement of an earlier exchange is replaced by whatever the new backend holds. The server does
  with an exchange what a private one would exactly when it is replayable (`PreparedRetry.RetriedIff`).
* On that path the name displaced from a full cache is not closed, and a client can lose its session
  later (`PreparedLossy.RetryLosesStatement`, condition `PreparedRelay.Loses`).
* A backend reset with `RESET ALL` instead of `DISCARD ALL` keeps its statements while the cache is
  emptied, so a later replay is turned down by the server and the session lost (`PreparedExamples.ResetAllTurnsDown`,
  `PreparedRuns.ResetKeeps`).
* A tracked SET that ends in a `--` comment swallows the statement after it in the batch sent at
  checkout (`Sync.CommentBreaksSync`, `Sync.BatchReadsBack`, `Sync.TrackedIsCarried`).
* One batch that opens a transaction and sets a parameter is believed at once, and a later ROLLBACK
  undoes it on the server only (`ParamLeaks.RolledBackIsBelieved`, `ParamRuns.OpenBatchIsBelieved`).
* A transaction opened, used for a SET and rolled back by three messages of one exchange is believed to
  have set the parameter (`ParamLeaks.UndoneInsideIsBelieved`, `ParamRuns.ParsedIsBelieved`).
* A message that both sets and undoes, `ROLLBACK; SET a = 1`, is neither believed nor pinned, while the
  server keeps what it set after the undoing (`ParamLeaks.UndoneFirstLeaks`,
  `ParamRuns.DroppedInStepIff`).
* One batch that sets a parameter, commits and then fails is forgotten, while the server keeps the
  parameter for the next client (`ParamLeaks.CommittedThenErroredLeaks`, `ParamRuns.ErroredIsForgotten`).
* A SET is believed when it is parsed, executed or not, and not noticed when it is executed again
  (`ParamLeaks.ParsedOnlyIsBelieved`, `ParamLeaks.ExecutedAgainLeaks`, `ParamRuns.ParsedIsBelieved`).
* A read-only session is not refused `SET "default_transaction_read_only" = off`, because a quoted name
  is not read (`ReadOnlyHole.QuotedNameIsNotRefused`, `ReadOnlyHole.QuotedNameEndsReadOnly`), nor
  `BEGIN READ WRITE, ISOLATION LEVEL SERIALIZABLE`, because of the comma, nor
  `SET transaction_read_only = off` (`Openers.CommaGetsPast`, `Openers.TransactionSetGetsPast`). An opener
  is refused exactly when READ and WRITE are neighbouring words of it (`Openers.OpenerRefusedIff`).
* An exchange retried inside a transaction runs outside it, on a backend that has only what the client
  carries (`ParamLeaks.RetryForgetsTransaction`, `ParamRuns.RetriedWhileHeldIff`).
* `$0` becomes a `?` with no value, and a `?` of the statement's own is taken for a parameter
  (`Rewrite.MarkerWithoutValue`, `Rewrite.TranslationKeepsMeaning`).
* Removing literals twice differs from doing it once when there is non-ASCII text in code
  (`Scanner.StripTwice`).

Closing an unknown statement is refused, and parsing a name again replaces it; section 55.2.3 of the
PostgreSQL 16 documentation asks for the opposite in both cases, and what is called a client's own server
here is a PostgreSQL server exactly up to these two (`PreparedRelay.PlainServerIff`). It also has a server
discard what follows an error until Sync, while after a refusal of its own havuz goes on with the
exchange. The model follows the code.

## Model

| member | source | states |
|---|---|---|
| `PreparedOwn.RunsOwnStatements` | crates/havuz-pg/src/txn.rs:391-439 | safety over every run of any clients over any backends, whatever fails, is retried, or is left half way: if the server runs a statement for a client's Bind or Describe of a name, it is the one of that client's latest Parse of the name, SQL and types, with the portal, formats and values of this Bind or the kind of this Describe; and havuz refuses a message exactly when the client's own server would have nothing for it |
| `PreparedOwn.RetriedRunsOwnNames` | crates/havuz-pg/src/txn.rs:557-585 | on every run and any backend, the second pass of a replayable exchange runs under every name what the client's own server would have run |
| `PreparedOwn.RunKeepsOwn` | crates/havuz-pg/src/txn.rs:391-439 | over every run, tables are the private ones under global names, and every named statement on a server stands under its own global name |
| `PreparedRuns.OrderlyRunsAct` | crates/havuz-pg/src/txn.rs:391-439 | over every orderly run the server does with a message what the client's own server would do: the same statement, with everything else the message asks for. Apart from errors of the statement or the exchange itself, the only other thing is that a statement is turned down, and only by a backend whose cache is out of step with its server |
| `PreparedRuns.AnswersReachIff` | crates/havuz-pg/src/txn.rs:901-979 | over every run, orderly or not, as far as the order is known: the client reads the answers to its messages, of the right kinds, in order and nothing else, if and only if nothing stood on the line when its backend was taken and the answers are straight; and a message keeps them straight if and only if, refused, it finds nothing waiting, and otherwise what havuz sends for it finds nothing but replies like the one it waits for. The order stays known as long as the client closes nothing |
| `PreparedRuns.RetriedExactly` | crates/havuz-pg/src/txn.rs:557-585 | after every orderly run, the server does with a retried exchange on a backend in step what the client's own would do if and only if it is replayable; on any backend, and as long as no Parse fails and no statement follows an error, a replayable one does that or is turned down |
| `PreparedRuns.TidyRunsArePrivate` | crates/havuz-pg/src/prepared.rs:64-81 | refinement: on orderly runs where no reset leaves statements behind and no second pass drops one, every cache equals its server's set of named statements, the server does with every message exactly what the client's own would do, portal, formats and values included, and with a retried exchange exactly when it is replayable |
| `PreparedRuns.RunKeepsInv` | crates/havuz-pg/src/txn.rs:391-439 | over every orderly run, tables are the private ones under global names, buffers hold the exchange, backends are sound and held by one client, and an idle one has nothing left on its line |
| `PreparedRuns.RunKeepsSynced` | crates/havuz-pg/src/prepared.rs:227-229 | cache and server stay equal over every orderly and tidy run, so no Parse is sent for a name already held and no needed replay is skipped |
| `PreparedRuns.SendKeeps` | crates/havuz-pg/src/txn.rs:391-439 | a message through the relay keeps the world's invariant; a replay the server turns down costs the session and the backend |
| `PreparedRuns.RetryKeeps` | crates/havuz-pg/src/txn.rs:557-585 | a retry that gets to its end keeps the world's invariant: the old backend is gone, and the client is where sending the exchange once would leave it |
| `PreparedRuns.ResetKeeps` | crates/havuz-pg/src/backend.rs:252-285 | after a reset the cache equals the server's named set exactly when DISCARD ALL was sent or there was nothing to forget; it is always a subset |
| `PreparedRuns.ResetAllRefusesBind` | crates/havuz-pg/src/backend.rs:265-278 | a statement left on the server by RESET ALL makes the next Bind of it there fail, and does not after DISCARD ALL |
| `PreparedRuns.TurnedDownDies` | crates/havuz-pg/src/txn.rs:419-425 | a client that binds or describes a statement which the backend holds and does not have cached loses its session |
| `PreparedOrder.RightIff` | crates/havuz-pg/src/txn.rs:901-979 | what the order recorded for a line says: straight and nothing foreign is exactly reading the right replies, compared by kind |
| `PreparedOrder.RightIsOwn` | crates/havuz-pg/src/txn.rs:901-979 | and then every row and every error is the one for its message |
| `PreparedOrder.WireRelayKeepsWire` | crates/havuz-pg/src/txn.rs:391-439 | whatever the message, the backend and what waits, the recorded order says where the answers are |
| `PreparedOrder.StraightIff` | crates/havuz-pg/src/txn.rs:395-439 | when one message keeps the answers straight: the condition is the kinds of the replies that wait, the kinds havuz will wait for, and whether the server takes the replay |
| `PreparedOrder.SureWithoutCloses` | crates/havuz-pg/src/txn.rs:901-979 | in an exchange that closes nothing, on a line finished when it was taken, the order is always known |
| `PreparedOrder.TurnedTwice` | crates/havuz-pg/src/txn.rs:901-979 | behind a Parse and a Close, a replay and an eviction put the two answers out of order and back again; with one more Close they do not get back |
| `PreparedWire.WireIsCore` | crates/havuz-pg/src/txn.rs:391-439 | until an error, reading replies on the line changes nothing about what table, cache and server become and what the message does |
| `PreparedWire.LineMessageKeeps` | crates/havuz-pg/src/txn.rs:391-439 | one message on a line in any state, calm after an error, keeps client and backend sound and does what the client's own server would do, up to errors |
| `PreparedWire.SyncedTeaches` | crates/havuz-pg/src/txn.rs:901-947 | a backend in step takes every Parse that is replayed to it |
| `PreparedReplies.ReplaySwallowsAnswers` | crates/havuz-pg/src/txn.rs:919-937 | a run from nothing on which Bind, Execute, Bind are sent and only the last answer reaches the client |
| `PreparedReplies.EarlierErrorKillsSession` | crates/havuz-pg/src/txn.rs:919-937 | a run from nothing on which the error of one statement is taken for a rejected replay of the next |
| `PreparedReplies.FreeSwallowsAnswer` | crates/havuz-pg/src/txn.rs:953-979 | a run from nothing on which two statements are parsed and one ParseComplete reaches the client |
| `PreparedReplies.RefusalEndsTwice` | crates/havuz-pg/src/txn.rs:428-439 | a run from nothing on which one exchange is answered with an error, two ReadyForQuery, and a ParseComplete between them for the message after the refused one |
| `PreparedReplies.RefusalOvertakes` | crates/havuz-pg/src/txn.rs:428-439 | a Close that is refused behind a Parse is answered before it |
| `PreparedReplies.LeavingHandsOnReplies` | crates/havuz-pg/src/txn.rs:647-658 | a run from nothing on which a client's Sync is answered with a ParseComplete that answers the client before it |
| `PreparedReplies.EndedRetryHandsOnReplies` | crates/havuz-pg/src/txn.rs:563-579 | a run from nothing on which a retry ends the session and leaves an idle backend with a reply on its line |
| `PreparedReplies.SkippedParseIff` | crates/havuz-pg/src/txn.rs:395-411 | a Parse the server ignores, and that havuz gets through, leaves the cache within the server's set exactly when the server held the statement already |
| `PreparedReplies.ParseAfterErrorHurtsNeighbour` | crates/havuz-pg/src/txn.rs:395-411 | a run from nothing on which a client's Parse after an error makes another client's Bind fail as missing |
| `PreparedReplies.FailedParseIff` | crates/havuz-pg/src/txn.rs:395-411 | a Parse that fails leaves the cache within the server's set exactly when the server held the statement and the cache did not have it |
| `PreparedReplies.FailedParseHurtsNeighbour` | crates/havuz-pg/src/txn.rs:395-411 | a run from nothing on which a Parse that fails on a backend makes another client's Bind there fail as missing |
| `PreparedRetry.RetriedIff` | crates/havuz-pg/src/txn.rs:557-585 | the exact condition: nothing in the exchange was refused, a name it binds or describes before writing it ends as it began, a name it closes first is parsed again, and it uses no unnamed statement of an earlier exchange |
| `PreparedRetry.RetriedRunsOwn` | crates/havuz-pg/src/txn.rs:557-585 | on any backend, in step or not, a pass of a replayable exchange in which no Parse fails and no statement follows an error does what the client's own server would do, or the server skips, fails or turns it down |
| `PreparedRetry.ReplayableIff` | crates/havuz-pg/src/txn.rs:557-585 | that condition says exactly that two private servers, one before the exchange and one after it, do the same with the exchange |
| `PreparedRetry.PassAnswers` | crates/havuz-pg/src/txn.rs:557-585 | the second pass on a backend in step does what the client's own server would do exactly when that server and one that starts from the table of the first pass agree on the exchange |
| `PreparedRetry.WirePassKeeps` | crates/havuz-pg/src/txn.rs:557-585 | a second pass that gets to its end keeps the backend sound, and in step unless it drops a name |
| `PreparedRetry.TwiceIsOnce` | crates/havuz-pg/src/txn.rs:557-585 | running an exchange twice leaves a client's table where running it once does |
| `PreparedRetry.ParsedFirstIsReplayable` | crates/havuz-pg/src/txn.rs:557-585 | an exchange that parses every name it writes before using it is replayable |
| `PreparedExamples.RetryRunsReparsed` | crates/havuz-pg/src/txn.rs:557-585 | a run from nothing on which the retried Bind runs the statement parsed after it |
| `PreparedExamples.RetryEndsSession` | crates/havuz-pg/src/txn.rs:578-579 | a run from nothing on which the retried Bind of a name closed after it ends the session |
| `PreparedExamples.RetryRunsNeighboursUnnamed` | crates/havuz-pg/src/txn.rs:557-585 | a run from nothing on which the retried Bind runs another client's unnamed statement |
| `PreparedExamples.CloseThenParseReplays` | crates/havuz-pg/src/txn.rs:557-585 | closing a name and parsing it anew is replayable, though the name is used before it is parsed |
| `PreparedExamples.ResetAllTurnsDown` | crates/havuz-pg/src/backend.rs:265-278 | a run from nothing on which a client loses its session on the very backend it prepared its statement on |
| `PreparedLossy.RetryLosesStatement` | crates/havuz-pg/src/txn.rs:561-568 | a run from nothing, through a full cache, on which a retry leaves a statement behind and the client that parsed it loses its session |
| `PreparedRelay.MessageKeeps` | crates/havuz-pg/src/prepared.rs:111-194 | one message of any kind keeps the client's table equal to its private one, the cache bounded, duplicate-free and within the server's set, every server statement under its own global name, and does on the server what it would do on the client's own, with the same portal, formats and values; the cache stays equal to the server's set exactly when the step drops no name |
| `PreparedRelay.ParseNamedKeeps` | crates/havuz-pg/src/txn.rs:395-411 | the same for a named Parse, including freeing a name already held and evicting the oldest |
| `PreparedRelay.NamedKeeps` | crates/havuz-pg/src/txn.rs:901-947 | the same for a Bind or Describe of a known statement, with or without a replay: it runs the statement with what follows the name as the client sent it |
| `PreparedRelay.CloseKeeps` | crates/havuz-pg/src/txn.rs:413-417 | the same for a Close of a known statement |
| `PreparedRelay.BindRunsIff` | crates/havuz-pg/src/prepared.rs:168-194 | a Bind of a known statement runs that statement, with the portal, formats and values of the Bind, exactly when the backend has it cached or does not hold it at all, and is otherwise turned down as a duplicate |
| `PreparedRelay.CollisionFreeIff` | crates/havuz-pg/src/prepared.rs:265-278 | global names do not collide exactly when the digest is injective on the hashed texts of the statements in use |
| `PreparedRelay.PlainServerIff` | crates/havuz-pg/src/prepared.rs:111-194 | a client's own server, as havuz has it, answers and ends up like a PostgreSQL server with the same statements exactly unless the message parses a name it has or closes one it has not |
| `Statements.ParseForwarded` | crates/havuz-pg/src/prepared.rs:111-130 | byte by byte: a named Parse goes out as global name, NUL, the SQL and types as they came, and the same bytes are kept for a replay |
| `Statements.BindForwarded` | crates/havuz-pg/src/prepared.rs:133-137 | a Bind of a known statement goes out with its portal, formats and values as they came and only the name replaced, replayed first exactly when the backend does not have it cached |
| `Statements.DescribeForwarded` | crates/havuz-pg/src/prepared.rs:139-166 | a Describe or Close of a known statement goes out with its kind byte and what follows as they came; a Close is never replayed for |
| `Statements.UnnamedForwarded` | crates/havuz-pg/src/prepared.rs:168-194 | a Bind of the unnamed statement, and a Describe or Close of a portal or of the unnamed statement, go out as they came |
| `PreparedRelay.OthersForwarded` | crates/havuz-pg/src/txn.rs:884-893 | every other message goes out as it came |
| `Prepared.RenamedKeepsRest` | crates/havuz-pg/src/prepared.rs:356-386 | renaming changes nothing of what a Bind or Describe asks for besides the statement |
| `Statements.InsertedMeaning` | crates/havuz-pg/src/prepared.rs:229-245 | insertion keeps the 256 bound and distinctness, adds the name, and evicts exactly the oldest, exactly when the cache is full and the name is new |
| `Statements.RemovedMeaning` | crates/havuz-pg/src/prepared.rs:247-251 | removal takes out exactly that name |
| `Statements.BackendStatements.Insert` | crates/havuz-pg/src/prepared.rs:229-245 | the in-place update is the insertion above and keeps `present` equal to the contents of `order` |
| `Statements.BackendStatements.Remove` | crates/havuz-pg/src/prepared.rs:247-251 | likewise for removal |
| `Statements.BackendStatements.Has` | crates/havuz-pg/src/prepared.rs:203-258 | membership of the set is membership of the queue |
| `Statements.BackendStatements.Clear` | crates/havuz-pg/src/prepared.rs:254-257 | empties both |
| `Statements.ClientStatements.Parse` | crates/havuz-pg/src/prepared.rs:111-130 | records the statement under the client's name with its global name and replayable Parse, and leaves unnamed and unreadable ones alone |
| `Statements.ClientStatements.Forget` | crates/havuz-pg/src/prepared.rs:197-199 | drops exactly that name |
| `Prepared.ParseRoundTrip` | crates/havuz-pg/src/prepared.rs:280-318 | a built Parse decodes to its name, SQL and types exactly when name and SQL are NUL-free UTF-8 |
| `Prepared.DecodeParseSound` | crates/havuz-pg/src/prepared.rs:297-318 | whatever decodes rebuilds to the very same body |
| `Prepared.DecodeParseComplete` | crates/havuz-pg/src/prepared.rs:280-318 | every NUL-free Parse decodes to its parts or is refused as not UTF-8 |
| `Prepared.RenameBind` | crates/havuz-pg/src/prepared.rs:356-386 | renaming any readable Bind changes the statement name only: portal name and all later bytes are kept |
| `Prepared.RenameDescribe` | crates/havuz-pg/src/prepared.rs:356-386 | renaming a Describe or Close keeps the kind byte and what follows the name |
| `Prepared.RenamedReadsBack` | crates/havuz-pg/src/prepared.rs:321-349 | reading the rewritten body gives the new name |
| `Prepared.NamesSay` | crates/havuz-pg/src/prepared.rs:297-353 | for any bytes: which name a Parse, Bind, Describe or Close is read to have, and which error it is refused with when a NUL or the text is missing |
| `Prepared.RenameFirst` | crates/havuz-pg/src/prepared.rs:356-386 | a body that does not start with a kind byte is renamed from its first string on, and one without a NUL is refused |
| `Prepared.GlobalNameCollides` | crates/havuz-pg/src/prepared.rs:265-278 | two statements share a global name exactly when their digests agree, and different statements hash different texts |
| `Prepared.GlobalNameSays` | crates/havuz-pg/src/prepared.rs:265-278 | the name is `havuz_` and the digest of the SQL, a NUL and the types in lower-case hexadecimal digits |
| `Prepared.GlobalNameIsText` | crates/havuz-pg/src/prepared.rs:265-278 | a global name is a non-empty NUL-free string |
| `ParamRuns.StatementsSeePrivateSettings` | crates/havuz-pg/src/txn.rs:749-793 | after every run, and on whichever backend it lands, a client's statement runs under exactly the parameters of its private connection; which parameter a text sets or resets, on either, is fixed by the rows of `Spellings` |
| `ParamRuns.ReadOnlyInForce` | crates/havuz-pg/src/txn.rs:219-255 | a read-only session, pinned or not, runs every statement with the read-only setting on, on every run on which nothing that read-only sessions send and havuz does not read turns it off (what havuz refuses is fixed by the rows of `Openers`); other sessions may leave anything behind that havuz does not read once they are pinned, and like everybody keep to the conditions under "Left out" until then |
| `ParamRuns.ReadOnlyUntilPinned` | crates/havuz-pg/src/txn.rs:219-255 | on every such run a read-only session that was never pinned runs with the setting on, whatever havuz could not read |
| `ParamRuns.RefusedIff` | crates/havuz-pg/src/txn.rs:215-255 | an exchange of which every text is refused to a read-only session changes no session and no backend, and no other exchange is held back |
| `ParamRuns.PinsStay` | crates/havuz-pg/src/txn.rs:684-706 | a pin lasts as long as the session |
| `ParamRuns.RunKeeps` | crates/havuz-pg/src/txn.rs:711-726 | the invariant over every run: sessions in step with private connections, free backends exactly as recorded, no backend held twice |
| `ParamRuns.ExchangeKeeps` | crates/havuz-pg/src/txn.rs:664-726 | one exchange of simple or extended messages, failed or not, committed, partly committed or rolled back, keeps client, record and server in step unless the session is pinned |
| `ParamRuns.HandedOnInStepIff` | crates/havuz-pg/src/txn.rs:684-726 | any exchange none of whose statements pins, and that leaves no transaction open, hands its backend on in step exactly when what is believed afterwards is what was executed |
| `ParamRuns.ErroredIsForgotten` | crates/havuz-pg/src/txn.rs:715-720 | an errored exchange hands its backend on in step exactly when the statements run before the error, with the transactions they open and close, leave nothing committed |
| `ParamRuns.ParsedIsBelieved` | crates/havuz-pg/src/txn.rs:664-681 | an exchange of Parse and Execute messages hands its backend on in step exactly when what ran, transactions opened and rolled back inside it included, does what the parsed texts would do, leaving out those that both set and undo |
| `ParamRuns.OpenBatchIsBelieved` | crates/havuz-pg/src/txn.rs:684-726 | a batch that opens a transaction and sets parameters, followed by ROLLBACK, hands the backend on in step exactly when what the batch committed by itself is what it is believed to have set |
| `ParamRuns.DroppedInStepIff` | crates/havuz-pg/src/params.rs:206-218 | a message that both sets and undoes, and of which no statement pins, changes neither what is believed nor what is recorded, and its backend is handed on in step exactly when the message leaves the parameters as they were |
| `ParamRuns.RetriedWhileHeldIff` | crates/havuz-pg/src/txn.rs:501-555 | an exchange retried while its client holds a transaction or a pin runs in step exactly when there was no transaction and no setting but the carried ones |
| `ParamRuns.CheckoutInStep` | crates/havuz-pg/src/txn.rs:749-793 | checking out any clean backend puts it in step, whoever used it before |
| `ParamRuns.LeaveKeeps` | crates/havuz-pg/src/txn.rs:647-658 | a client leaving never hands on a backend whose recorded parameters are wrong |
| `ParamRuns.ReadOnlyIsCarried` | crates/havuz-pg/src/params.rs:382-384 | the enforced read-only SET is itself one that can be replayed |
| `ParamLeaks.CommittedThenErroredLeaks` | crates/havuz-pg/src/txn.rs:715-720 | `BEGIN; SET a = 1; COMMIT; SELECT 1/0` on a run from nothing: the next client runs with `a` |
| `ParamLeaks.ParsedOnlyIsBelieved` | crates/havuz-pg/src/txn.rs:664-681 | a SET that is parsed and never executed is set on the client's next backend |
| `ParamLeaks.ExecutedAgainLeaks` | crates/havuz-pg/src/txn.rs:664-681 | a SET executed again after a RESET is not noticed, and the next client runs with it |
| `ParamLeaks.RolledBackIsBelieved` | crates/havuz-pg/src/txn.rs:684-726 | `BEGIN; SET a = 1` then ROLLBACK on a run from nothing: the client's next backend has `a` |
| `ParamLeaks.UndoneInsideIsBelieved` | crates/havuz-pg/src/params.rs:206-230 | a run from nothing: BEGIN, SET and ROLLBACK as three messages of one exchange, and the client runs with the parameter on its next backend |
| `ParamLeaks.UndoneFirstLeaks` | crates/havuz-pg/src/txn.rs:684-706 | a run from nothing: after `ROLLBACK; SET a = 1` the next client on the backend runs with `a`, and the client itself runs without it on another |
| `ParamLeaks.UndoneFirstText` | crates/havuz-pg/src/params.rs:206-218 | the literal text of that example |
| `ParamLeaks.RetryForgetsTransaction` | crates/havuz-pg/src/txn.rs:501-555 | a run from nothing on which a retried exchange runs outside its client's transaction and without its SET |
| `ParamExamples.FailingBatchStages` | crates/havuz-pg/src/params.rs:206-218 | that first batch splits into its four statements and stages the SET, without a pin |
| `ParamExamples.FailingBatchText` | crates/havuz-pg/src/txn.rs:715-720 | that batch is exactly `BEGIN; SET a = 1; COMMIT; SELECT 1/0` |
| `ParamExamples.OpenBatchText` | crates/havuz-pg/src/txn.rs:684-726 | the other one is exactly `BEGIN; SET a = 1` |
| `ReadOnlyHole.QuotedNameIsNotRefused` | crates/havuz-pg/src/params.rs:251-279 | for every quotable name, `SET "name" = off` pins the session and is not refused |
| `ReadOnlyHole.QuotedNameEndsReadOnly` | crates/havuz-pg/src/txn.rs:219-255 | a run from nothing on which a read-only session ends up on a server that is not |
| `Sync.SyncReadsBack` | crates/havuz-pg/src/params.rs:443-456 | executing the delta as one text batch makes the backend's parameters exactly the client's, whenever no statement of it but the last ends inside a comment or literal |
| `Sync.CarriedReadsBack` | crates/havuz-pg/src/params.rs:443-456 | in particular for every client whose statements stand alone, and every backend |
| `Sync.RunDelta` | crates/havuz-pg/src/params.rs:443-456 | the same statement by statement |
| `Sync.DeltaEmptyIffEqual` | crates/havuz-pg/src/params.rs:443-456 | the delta is empty exactly when the maps agree |
| `Sync.ApplySays` | crates/havuz-pg/src/params.rs:408-423 | what each action does to every parameter, those it does not name included |
| `Sync.DeltaTouchesOnce` | crates/havuz-pg/src/params.rs:443-456 | each parameter is touched at most once, and only if it disagrees |
| `Sync.BatchReadsBack` | crates/havuz-pg/src/txn.rs:749-760 | statements joined by `; ` are read back as exactly those statements if and only if all but the last end outside literals and comments |
| `Sync.CommentSwallowsNext` | crates/havuz-pg/src/txn.rs:749-760 | a concrete pair of SETs of which the second is never executed |
| `Sync.CommentBreaksSync` | crates/havuz-pg/src/params.rs:443-456 | for a client that carries that pair, the delta for a fresh backend does not give the client's parameters |
| `Sync.CommentedIsTracked` | crates/havuz-pg/src/params.rs:73-172 | both SETs of that pair are ones the classifier tracks |
| `Sync.TrackedIsCarried` | crates/havuz-pg/src/params.rs:88-172 | a tracked SET can be replayed exactly when it and the RESET of its name stand alone |
| `Sync.TrackedReadsBack` | crates/havuz-pg/src/params.rs:73-172 | the text kept for a SET is classified as that same SET |
| `Sync.TrackedName` | crates/havuz-pg/src/params.rs:320-337 | a tracked name is always a lower-case parameter name; which one it is for each spelling is in the rows of `Spellings` |
| `Sync.PlainSetIsTracked` | crates/havuz-pg/src/params.rs:88-172 | `SET name = value` without quotes or `$` is tracked as written |
| `Sync.SeedIsCarried` | crates/havuz-pg/src/params.rs:386-393 | a startup parameter with an ordinary name and no backslash can be replayed |
| `Sync.ResetIsSelfContained` | crates/havuz-pg/src/params.rs:174-192 | the RESET written for a portable name stands alone and is read as resetting it |
| `Sync.PlainNameStandsAlone` | crates/havuz-pg/src/params.rs:320-337 | a parameter name without a `$` can always be written into a RESET |
| `Delta.ResetReadsBack` | crates/havuz-pg/src/params.rs:174-192 | `RESET n` is classified as resetting n exactly when n is not all, session or time |
| `Delta.SeedReadsBack` | crates/havuz-pg/src/params.rs:386-393 | what `seed` writes is classified as tracking that name and text exactly when the name is no keyword of SET and the quoted value shows no placeholder |
| `Delta.QuotedIsLiteral` | crates/havuz-pg/src/params.rs:309-313 | without a backslash a quoted value is one literal, with no placeholder in it |
| `Delta.LowerIsName` | crates/havuz-pg/src/params.rs:320-337 | lower-casing keeps a parameter name one |
| `ClientSettings.ReadOnlySurvives` | crates/havuz-pg/src/params.rs:206-279 | over every sequence of messages that are not refused, committed or discarded in any pattern, the carried map keeps the read-only setting on |
| `ClientSettings.ActionsKeepReadOnly` | crates/havuz-pg/src/params.rs:251-279 | a whole message that is not refused stages nothing that touches the setting |
| `Params.UndefeatedKeepsReadOnly` | crates/havuz-pg/src/params.rs:251-279 | the refusal and the classifier agree statement by statement: a statement that is not refused stages nothing that touches the setting |
| `Params.PinsAreActions` | crates/havuz-pg/src/classify.rs:98-118 | a message with a statement that pins stages a pin |
| `Spellings.SetNames` | crates/havuz-pg/src/params.rs:128-128 | `SET NAMES v`, in any letter case and for any value, is tracked as client_encoding |
| `Spellings.SetSchema` | crates/havuz-pg/src/params.rs:129-129 | `SET SCHEMA v` is tracked as search_path |
| `Spellings.SetTimeZone` | crates/havuz-pg/src/params.rs:122-127 | `SET TIME ZONE v` is tracked as timezone |
| `Spellings.SetXmlOption` | crates/havuz-pg/src/params.rs:130-135 | `SET XML OPTION v` is tracked as xmloption |
| `Spellings.SetLocal` | crates/havuz-pg/src/params.rs:92-95 | SET LOCAL and SET TRANSACTION change nothing havuz keeps, whatever follows |
| `Spellings.SetRole` | crates/havuz-pg/src/params.rs:97-104 | SET ROLE and SET CONSTRAINTS pin |
| `Spellings.SetSessionRole` | crates/havuz-pg/src/params.rs:106-113 | SET SESSION AUTHORIZATION and SET SESSION CHARACTERISTICS pin |
| `Spellings.SetSession` | crates/havuz-pg/src/params.rs:106-117 | any other `SET SESSION x` is `SET x`, under its own text |
| `Spellings.SetTo` | crates/havuz-pg/src/params.rs:137-171 | `SET name TO v` pins when v has a placeholder, resets when v is DEFAULT in any case, and else is tracked under the name in lower case as written |
| `Spellings.SetEquals` | crates/havuz-pg/src/params.rs:137-171 | the same for `SET name = v`, blanks around the sign or not |
| `Spellings.SetOther` | crates/havuz-pg/src/params.rs:143-154 | a SET of a parameter with neither `=` nor TO pins |
| `Spellings.PlaceholderPins` | crates/havuz-pg/src/params.rs:309-313 | `$` and a digit in code are a placeholder |
| `Spellings.ResetEverything` | crates/havuz-pg/src/params.rs:174-177 | RESET ALL forgets every parameter |
| `Spellings.ResetRole` | crates/havuz-pg/src/params.rs:174-179 | RESET ROLE and RESET SESSION AUTHORIZATION reset what they name |
| `Spellings.ResetTimeZone` | crates/havuz-pg/src/params.rs:180-187 | RESET TIME ZONE resets timezone, and any other RESET TIME pins |
| `Spellings.ResetNamed` | crates/havuz-pg/src/params.rs:188-191 | RESET of a parameter name resets it in lower case, and of anything else pins |
| `Spellings.OtherSetsNothing` | crates/havuz-pg/src/params.rs:73-86 | no statement with another first word sets anything |
| `Spellings.UndoesIff` | crates/havuz-pg/src/params.rs:224-228 | a statement undoes its batch exactly when its first word is ROLLBACK or ABORT in any letter case |
| `Spellings.PinsIff` | crates/havuz-pg/src/classify.rs:106-126 | a SET or RESET pins the session exactly when it is classified so |
| `Spellings.TrailingSemi` | crates/havuz-pg/src/params.rs:73-86 | a trailing `;` changes nothing |
| `Spellings.WordEndsAt` | crates/havuz-pg/src/params.rs:299-303 | a word ends at a blank, a tab, a line break, `=` or a comma |
| `Spellings.ParameterNames` | crates/havuz-pg/src/params.rs:320-343 | a parameter name is one identifier, or two with a dot between them, and never more |
| `Openers.OpenerRefusedIff` | crates/havuz-pg/src/params.rs:251-294 | BEGIN or START TRANSACTION with any options is refused to a read-only session exactly when READ and WRITE stand in it as neighbouring words |
| `Openers.SetModeRefusedIff` | crates/havuz-pg/src/params.rs:255-267 | SET TRANSACTION and SET SESSION CHARACTERISTICS, in any letter case and with any words, are refused to a read-only session exactly when READ and WRITE stand in them as neighbouring words |
| `Openers.SetLineRefusedIff` | crates/havuz-pg/src/params.rs:255-267 | the same for every SET that is not tracked |
| `Openers.SettingIsRefused` | crates/havuz-pg/src/params.rs:255-262 | every assignment to default_transaction_read_only is refused, in any letter case, with `=` or TO, and with any value but a placeholder |
| `Openers.ResetIsRefused` | crates/havuz-pg/src/params.rs:255-262 | so are RESET of it and RESET ALL |
| `Openers.OthersPass` | crates/havuz-pg/src/params.rs:251-281 | a statement with any other first word is not refused |
| `Openers.StartOtherPasses` | crates/havuz-pg/src/params.rs:268-272 | nor is START of anything but TRANSACTION |
| `Openers.OtherAssignmentPasses` | crates/havuz-pg/src/params.rs:251-262 | nor an assignment to another parameter name, with `=` or TO |
| `Openers.OtherResetPasses` | crates/havuz-pg/src/params.rs:251-262 | nor RESET of another name, of ROLE or of SESSION |
| `Openers.CommaGetsPast` | crates/havuz-pg/src/params.rs:285-294 | `BEGIN READ WRITE, ISOLATION LEVEL SERIALIZABLE` is not refused |
| `Openers.OtherSetGetsPast` | crates/havuz-pg/src/params.rs:251-283 | no plain `SET name = value` of another parameter is refused, whatever it does to the transaction |
| `Openers.TransactionSetGetsPast` | crates/havuz-pg/src/params.rs:251-283 | `SET transaction_read_only = off` is not refused |
| `ClientSettings.ClientParams.FromStartup` | crates/havuz-pg/src/params.rs:359-374 | the loop seeds every usable startup key and everything packed into `options`, in order |
| `ClientSettings.StartupMeaning` | crates/havuz-pg/src/params.rs:359-393 | a client starts with exactly the parameters its packet assigns, directly or through `options`, the last assignment to a name winning whatever its case |
| `ClientSettings.PlainStartupIsCarried` | crates/havuz-pg/src/params.rs:359-393 | startup parameters with ordinary names and no backslash can all be replayed on every backend |
| `ClientSettings.StartupKeySays` | crates/havuz-pg/src/params.rs:359-394 | in any letter case: the connection's own keys and client_encoding seed nothing, `options` what is packed in it, any other parameter name a SET of it with quotes doubled, and anything else nothing |
| `ClientSettings.ClientParams.SeedOptions` | crates/havuz-pg/src/params.rs:362-366 | seeds the unpacked settings in order |
| `Options.OptionsRoundTrip` | crates/havuz-pg/src/params.rs:464-513 | a line of settings in any mix of the three spellings, escaped where needed, unpacks to exactly those settings if and only if no key holds an `=` and nothing has blanks around it |
| `Options.SplitOptions` | crates/havuz-pg/src/params.rs:489-513 | the loop over one buffer is the recursive split, escapes and a trailing backslash included |
| `Options.UnpackOptions` | crates/havuz-pg/src/params.rs:464-487 | the loop over the words is the recursive reading, a `-c` at the end included |
| `Options.LineSplits` | crates/havuz-pg/src/params.rs:489-513 | an escaped line splits into exactly its words |
| `ClientSettings.ClientParams.Seed` | crates/havuz-pg/src/params.rs:386-393 | one parameter, lower-cased and quoted |
| `ClientSettings.ClientParams.EnforceReadOnly` | crates/havuz-pg/src/params.rs:382-384 | sets the read-only entry and no other |
| `ClientSettings.ClientParams.Stage` | crates/havuz-pg/src/params.rs:396-400 | appends an action, believes nothing |
| `ClientSettings.ClientParams.CommitPending` | crates/havuz-pg/src/params.rs:408-421 | applies every staged action in order and empties the list |
| `ClientSettings.ClientParams.DiscardPending` | crates/havuz-pg/src/params.rs:425-427 | empties the list and leaves the map alone |
| `ClientSettings.ClientParams.Delta` | crates/havuz-pg/src/params.rs:443-456 | the two loops compute the delta the theorems are about |
| `Scanner.SplitStatements` | crates/havuz-pg/src/classify.rs:181-256 | the index loop is the token-by-token split, in which every written literal and comment is one token (`Literals`) |
| `Scanner.StripLiterals` | crates/havuz-pg/src/classify.rs:451-525 | the index loop is the token-by-token strip, in which every written literal and comment is one blank (`Literals`) |
| `Scanner.StripLeadingNoise` | crates/havuz-pg/src/classify.rs:272-290 | the loop removes every leading blank and comment |
| `Scanner.ScanDollarTag` | crates/havuz-pg/src/classify.rs:259-268 | the length of the delimiter `$tag$` for any tag of letters, digits and underscores, or none (`Literals.DollarIsOne`, `Literals.DollarIsCode`) |
| `Scanner.SkipToken` | crates/havuz-pg/src/classify.rs:186-247 | the loops over quotes, dollar quotes, line and nested block comments end exactly at the token's end |
| `Literals.QuotedIsOne` | crates/havuz-pg/src/classify.rs:186-247 | for any text between quotes, with doubled quotes and backslash pairs, and any rest: it strips to one blank, no `;` in it is a cut, and the rest is read on its own |
| `Literals.DollarIsOne` | crates/havuz-pg/src/classify.rs:259-268 | the same for `$tag$ body $tag$`, for every tag of letters, digits and underscores, the empty one included, and every body that does not hold the delimiter |
| `Literals.LineCommentIsOne` | crates/havuz-pg/src/classify.rs:186-247 | the same for a line comment up to the line break |
| `Literals.BlockCommentIsOne` | crates/havuz-pg/src/classify.rs:186-247 | the same for a block comment with comments nested in it |
| `Literals.QuotedStaysOpen` | crates/havuz-pg/src/classify.rs:186-247 | quoted text that is never closed takes the rest of the text |
| `Literals.DollarStaysOpen` | crates/havuz-pg/src/classify.rs:259-268 | so does dollar-quoted text |
| `Literals.LineCommentStaysOpen` | crates/havuz-pg/src/classify.rs:186-247 | so does a comment on the last line |
| `Literals.DollarIsCode` | crates/havuz-pg/src/classify.rs:259-268 | a `$` that no second `$` follows after tag characters is code |
| `Literals.CharIsCode` | crates/havuz-pg/src/classify.rs:181-256 | every other character that opens no comment is code, and a `;` among them is a cut |
| `Literals.NoiseBlock` | crates/havuz-pg/src/classify.rs:272-290 | a block comment before a statement ends at the first `*/`, nested or not |
| `Literals.NoiseLine` | crates/havuz-pg/src/classify.rs:272-290 | a line comment before a statement ends at the line break |
| `Literals.NoiseLastLine` | crates/havuz-pg/src/classify.rs:272-290 | and on the last line takes the rest |
| `Literals.NoiseOpenBlock` | crates/havuz-pg/src/classify.rs:272-290 | a block comment there that never ends takes the rest |
| `Literals.NoiseBlank` | crates/havuz-pg/src/classify.rs:272-290 | blanks before a statement are skipped |
| `Scanner.ScanLocal` | crates/havuz-pg/src/classify.rs:181-256 | how a token is read does not depend on the text that follows, as long as that stands apart |
| `Scanner.SplitJoins` | crates/havuz-pg/src/classify.rs:181-256 | the pieces joined by `;` give back the text up to one final `;` |
| `Scanner.PiecesAreClosed` | crates/havuz-pg/src/classify.rs:181-256 | no piece has a `;` in code, and each but an unfinished last one ends in code |
| `Scanner.SplitAt` | crates/havuz-pg/src/classify.rs:181-256 | after closed text the split of `a;b` is the two splits joined |
| `Scanner.StripAt` | crates/havuz-pg/src/classify.rs:451-525 | likewise for stripping |
| `Scanner.StripConcat` | crates/havuz-pg/src/classify.rs:451-525 | stripping distributes over any text that stands apart from closed text |
| `Scanner.StripCommutesWithSplit` | crates/havuz-pg/src/classify.rs:181-525 | stripping the whole equals stripping each piece and joining: the two scanners agree on what is code |
| `Scanner.StrippedIsCode` | crates/havuz-pg/src/classify.rs:451-525 | stripped text has no quote, comment opener or dollar-quote opener anywhere |
| `Scanner.StripTwice` | crates/havuz-pg/src/classify.rs:451-525 | stripping twice equals stripping once exactly when all code is ASCII |
| `Scanner.StripTwiceDiffers` | crates/havuz-pg/src/classify.rs:451-525 | a text for which it does not |
| `Utf8.PushedAre` | crates/havuz-pg/src/classify.rs:451-525 | a character of code is written as its UTF-8 bytes, each as a character |
| `Scanner.StripNoiseIdempotent` | crates/havuz-pg/src/classify.rs:272-290 | removing leading noise twice changes nothing more |
| `Routing.RouteComposes` | crates/havuz-pg/src/classify.rs:337-353 | after closed text, `a;b` goes to a replica exactly when every part that says anything does and one says something |
| `Routing.ReadOnlyFlagOnlyHelpsOpeners` | crates/havuz-pg/src/classify.rs:355-434 | the read-only flag only turns a write into a read, and only when some statement opens a transaction |
| `Routing.RouteIgnoresLiterals` | crates/havuz-pg/src/classify.rs:355-422 | what stands inside a literal or comment never changes the route, wherever in the statement it stands apart from its neighbours, blanks around it or not |
| `Routing.StripAroundLiteral` | crates/havuz-pg/src/classify.rs:451-525 | a closed literal strips to one blank, with what is around it stripped independently, as long as it is not glued to another literal |
| `Replicas.QueryIsWriteIff` | crates/havuz-pg/src/classify.rs:355-422 | for SELECT, WITH, SHOW, EXPLAIN, TABLE, VALUES and FETCH in any letter case: a write exactly when the text without literals holds one of the row locks or hidden writes, a data-modifying statement after WITH, or ANALYZE after EXPLAIN, each marker spelled out |
| `Replicas.OtherIsWrite` | crates/havuz-pg/src/classify.rs:382-387 | a statement with any other first word is a write |
| `Replicas.BeginIsReadIff` | crates/havuz-pg/src/classify.rs:369-380 | BEGIN is a read exactly when the session is read-only or the text says READ ONLY |
| `Replicas.StartIsReadIff` | crates/havuz-pg/src/classify.rs:369-380 | so is START, and only of TRANSACTION |
| `Replicas.NothingIsWrite` | crates/havuz-pg/src/classify.rs:337-346 | an empty text goes to the primary |
| `Replicas.OneStatement` | crates/havuz-pg/src/classify.rs:337-353 | one statement decides for itself |
| `Rewrite.TranslationKeepsMeaning` | crates/havuz-jdbc/src/rewrite.rs:38-91 | for every text, filling the k-th `?` with the k-th bound value gives the statement with each `$n` filled by the n-th value sent, repeated, out-of-order and missing ones included, exactly when there is no `$0` and no `?` of its own in code; which `n` a placeholder has is fixed by `Placeholders.MeantIsFilled` through a decimal printer |
| `Rewrite.OutputReadsBack` | crates/havuz-jdbc/src/rewrite.rs:38-91 | the output lexes to the input's tokens with each placeholder replaced: no token is split, merged or opened by the translation |
| `Rewrite.SecondRunChangesNothing` | crates/havuz-jdbc/src/rewrite.rs:38-91 | translating again changes nothing and finds no parameter |
| `Rewrite.UnchangedIffNoParam` | crates/havuz-jdbc/src/rewrite.rs:38-91 | the output equals the input exactly when no placeholder is in code |
| `Rewrite.HighestIsLargest` | crates/havuz-jdbc/src/rewrite.rs:56-66 | `highest` is the largest index used, and every index used is below it |
| `Rewrite.MarkersExceedOrder` | crates/havuz-jdbc/src/rewrite.rs:56-66 | there are never fewer `?` than values, and equally many exactly without `$0` and own `?` |
| `Rewrite.MarkerWithoutValue` | crates/havuz-jdbc/src/rewrite.rs:56-66 | `select $0` and `select ?` reach the driver with one marker and no value for it |
| `Rewrite.LexIsSource` | crates/havuz-jdbc/src/rewrite.rs:38-91 | the tokens are the text, with nothing lost |
| `Placeholders.PlaceholderIs` | crates/havuz-jdbc/src/rewrite.rs:172-184 | through a decimal printer: `$n`, leading zeros or not, is the n-th placeholder up to 65535, and a larger number is none |
| `Placeholders.LexReads` | crates/havuz-jdbc/src/rewrite.rs:38-91 | a statement written from characters, placeholders, quoted and dollar-quoted text and comments is read as those very pieces |
| `Placeholders.TranslatesPieces` | crates/havuz-jdbc/src/rewrite.rs:38-91 | its translation is the same pieces with a `?` for every placeholder, their numbers in order, and the largest of them |
| `Placeholders.MeantIsFilled` | crates/havuz-jdbc/src/rewrite.rs:38-91 | and what it means is every `$n` filled with the n-th value |
| `Placeholders.OpenDollarIsCopied` | crates/havuz-jdbc/src/rewrite.rs:146-169 | a dollar quote that is never closed takes the rest of the statement |
| `Placeholders.OpenQuotedIsCopied` | crates/havuz-jdbc/src/rewrite.rs:94-112 | so does quoted text |
| `Rewrite.Translate` | crates/havuz-jdbc/src/rewrite.rs:38-91 | the main loop computes text, order and highest of the token reading, and ends |
| `Rewrite.NextToken` | crates/havuz-jdbc/src/rewrite.rs:44-75 | the branches of the loop find exactly the next token |
| `Rewrite.CopyQuoted` | crates/havuz-jdbc/src/rewrite.rs:94-112 | ends at the closing quote, doubled quotes skipped |
| `Rewrite.CopyLineComment` | crates/havuz-jdbc/src/rewrite.rs:114-121 | ends before the line break |
| `Rewrite.CopyBlockComment` | crates/havuz-jdbc/src/rewrite.rs:123-140 | ends at the matching close, nested |
| `Rewrite.DollarQuote` | crates/havuz-jdbc/src/rewrite.rs:146-169 | ends after the matching tag; none when it opens nothing |
| `Rewrite.ScanPlaceholder` | crates/havuz-jdbc/src/rewrite.rs:172-184 | the number and end of a placeholder, none when it does not fit 16 bits; the number is the decimal one (`Placeholders.PlaceholderIs`) |
| `JdbcSession.Session.Execute` | crates/havuz-jdbc/src/session.rs:518-550 | "statement is gone" never happens; unless re-parsed since its Bind, a portal runs with one value per entry of `order`, and means what the client bound exactly when it is translatable |
| `JdbcSession.Session.Bind` | crates/havuz-jdbc/src/session.rs:438-482 | from the message body: a new portal names an existing statement and holds the values picked by its order; failures leave portals alone |
| `JdbcBind.ReadBind` | crates/havuz-jdbc/src/session.rs:442-463 | the loops over formats and values read every body, truncated ones included, as the recursive decoding does |
| `JdbcBind.BindReadsBack` | crates/havuz-jdbc/src/session.rs:442-463 | every Bind a client can write is read as meant: names, and each value with its format, NULL apart from empty, text decoded and bytes kept |
| `JdbcBind.CutBind` | crates/havuz-jdbc/src/session.rs:442-463 | a Bind that ends too early: no values after the names, and after a cut value NULLs |
| `JdbcBind.CutLength` | crates/havuz-jdbc/src/session.rs:870-878 | a length that is cut short is a NULL that takes the rest |
| `JdbcBind.FormatsApply` | crates/havuz-jdbc/src/session.rs:456-459 | text when no format is given, one for all, or one for each |
| `JdbcBind.ReadList` | crates/havuz-jdbc/src/session.rs:880-883 | the list of formats and what follows it |
| `JdbcSession.Session.Parse` | crates/havuz-jdbc/src/session.rs:405-436 | stores the translation of exactly this text, or fails and stores nothing |
| `JdbcSession.Session.Close` | crates/havuz-jdbc/src/session.rs:552-566 | closing a statement removes it and exactly its portals, so no portal dangles |
| `JdbcSession.Session.Sync` | crates/havuz-jdbc/src/session.rs:568-571 | clears the failure and nothing else |
| `Protocol.ReadEncoded` | crates/havuz-pg/src/protocol.rs:229-250 | a message is read back from the head of any stream exactly when it is within the limit |
| `Protocol.ReadAllEncoded` | crates/havuz-pg/src/protocol.rs:229-250 | a list of messages is read back from its concatenation exactly when all are within the limit |
| `Frames.MessageBytes` | crates/havuz-pg/src/protocol.rs:252-260 | tag, four bytes of length, body |
| `Frames.ReadSays` | crates/havuz-pg/src/protocol.rs:229-250 | what is read, or refused and why, for every length and every stream, with the limit as a number |
| `Frames.ReadNeedsFive` | crates/havuz-pg/src/protocol.rs:229-250 | a stream that ends within the tag and length is an unexpected end |
| `Frames.StartupBytes` | crates/havuz-pg/src/protocol.rs:91-125 | the four packets with their codes as bytes |
| `Frames.OtherCodeIsRefused` | crates/havuz-pg/src/protocol.rs:127-151 | every other code is an unsupported version |
| `Frames.ShortIsTruncated` | crates/havuz-pg/src/protocol.rs:127-151 | a packet too short for its code or its key is truncated |
| `Frames.WithoutUserIsRefused` | crates/havuz-pg/src/protocol.rs:138-144 | parameters without `user` are refused |
| `Frames.StartupSays` | crates/havuz-pg/src/protocol.rs:154-167 | what is read, or refused and why, for every length prefix, with the limit as a number |
| `Frames.StartupNeedsFour` | crates/havuz-pg/src/protocol.rs:154-167 | so is a packet that ends within its length |
| `Frames.ParamsSay` | crates/havuz-pg/src/protocol.rs:176-195 | the final NUL may be missing; a name without a value, a value without its NUL and bytes that are no text are refused |
| `Frames.RowReadsBack` | crates/havuz-pg/src/protocol.rs:365-378 | a row is read back by a client cell by cell, NULL apart from empty |
| `Frames.FirstColumnSays` | crates/havuz-pg/src/backend.rs:534-552 | the first column of any body: nothing for no column, NULL, or a length that does not fit |
| `Frames.FirstColumnNeedsSix` | crates/havuz-pg/src/backend.rs:534-552 | a row body of fewer than six bytes has no first column |
| `Frames.FieldsSay` | crates/havuz-pg/src/protocol.rs:449-462 | fields end at an empty one, and what is cut short is left out |
| `Frames.FieldsBytes` | crates/havuz-pg/src/protocol.rs:423-447 | field byte, text, NUL, and a NUL at the end |
| `Protocol.StartupRoundTrip` | crates/havuz-pg/src/protocol.rs:91-151 | a startup packet decodes to itself exactly when its keys are non-empty, keys and values NUL-free UTF-8, and a user is among them; the other kinds always do |
| `Protocol.ReadStartupEncoded` | crates/havuz-pg/src/protocol.rs:154-167 | through the length prefix, within the size limit it is read back from any stream and beyond it refused |
| `Protocol.ScanParams` | crates/havuz-pg/src/protocol.rs:176-195 | the loop over NUL-separated parts is the recursive decoding, every malformed ending included |
| `Protocol.BuildDataRow` | crates/havuz-pg/src/protocol.rs:365-378 | the loop writes the count and every cell in order |
| `Protocol.FirstColumnOfRow` | crates/havuz-pg/src/backend.rs:534-552 | the first value comes back lossily decoded, NULL apart from empty, when the 16-bit column count is positive, and unchanged exactly when it is NULL or well-formed UTF-8 |
| `Protocol.ErrorFields` | crates/havuz-pg/src/protocol.rs:449-462 | the loop is the recursive field decoding |
| `Protocol.FieldsRoundTrip` | crates/havuz-pg/src/protocol.rs:423-462 | an error response is read back field by field exactly when every field is UTF-8 without a NUL |
| `Wire.LossyIff` | crates/havuz-pg/src/backend.rs:551-551 | lossy decoding changes nothing exactly on well-formed UTF-8 |
| `Utf8.Utf8Iff` | crates/havuz-pg/src/backend.rs:551-551 | bytes are taken as text exactly when they are the encoding of some sequence of characters |
| `Utf8.BadLenIsLongest` | crates/havuz-pg/src/backend.rs:551-551 | one replacement character stands for the longest malformed start that could still have become a character, or for one byte |
| `Utf8.ReplacementIs` | crates/havuz-pg/src/backend.rs:551-551 | what replaces it is U+FFFD |
| `Listeners.ValidateListeners` | crates/havuz-core/src/state.rs:137-183 | accepts exactly the configurations with real ports, one family per port and no name meaning two things on a port |
| `Listeners.CheckPorts` | crates/havuz-core/src/state.rs:145-163 | the first loop: ports and families, and the pool names of each port |
| `Listeners.CheckAliases` | crates/havuz-core/src/state.rs:165-180 | the second loop: each alias valid, not its own pool and new on the port |
| `Listeners.ValidNameIff` | crates/havuz-core/src/state.rs:1011-1016 | a name has 1 to 63 letters, digits, `-` or `_`, beginning with a letter or digit |
| `Listeners.BuildListeners` | crates/havuz-core/src/state.rs:193-213 | exactly one listener per port with an enabled pool, holding that port's pools in order and its aliases sorted |
| `Listeners.SortIsSorted` | crates/havuz-core/src/state.rs:209-211 | the aliases come out in order, a permutation of what went in |
| `Listeners.ListenersAreSound` | crates/havuz-core/src/state.rs:137-213 | on an accepted configuration each listener has all enabled pools of its port, one family, ascending pools, strictly ascending aliases, each pointing to a pool there and shadowing none |
| `Listeners.OneListenerEach` | crates/havuz-core/src/state.rs:193-213 | a pool is in the listener of a port exactly when it is enabled there |
| `Listeners.ResolvesToTheOneAnswer` | crates/havuz-proto/src/family.rs:64-69 | on an accepted configuration a name resolves to a pool exactly when that pool answers to it, so never to two |
| `Listeners.SoleIsUnambiguous` | crates/havuz-core/src/state.rs:433-438 | a client naming nothing reaches a pool exactly when it is the only one served |
| `Admin.DeleteKeepsValid` | crates/havuz-admin/src/routes.rs:535-548 | deleting any name from any valid state leaves a valid state, with the pools still in key order |
| `Admin.RemovedUsers` | crates/havuz-admin/src/routes.rs:539-544 | a user disappears exactly when its only grants were that pool |
| `Admin.RevokedMembers` | crates/havuz-admin/src/routes.rs:539-544 | the users left are exactly those with another grant, each with exactly what remains |
| `Admin.KeptInOrder` | crates/havuz-admin/src/routes.rs:541-543 | what remains of a grant list is its other entries, all of them, in order |
| `Admin.WithoutKeepsRoutable` | crates/havuz-core/src/state.rs:137-183 | removing a pool cannot make two names collide or a port mixed |
| `Admin.NothingToDelete` | crates/havuz-admin/src/routes.rs:552-554 | when the answer is "not found", the state is unchanged |
| `Admin.State.DeletePool` | crates/havuz-admin/src/routes.rs:535-548 | the in-place update of pools, users and stored secrets is the deletion above, and tells whether there was such a pool |
| `Admin.CredentialsGoWithThePool` | crates/havuz-admin/src/routes.rs:545-548 | exactly the deleted pool's stored secrets go, other kinds stay, and no pool secret is left without its pool |
| `Admin.State.Validate` | crates/havuz-core/src/state.rs:95-127 | accepts exactly the valid states |
| `Cancel.LookupIsPrivate` | crates/havuz-pg/src/cancel.rs:89-161 | on every run with distinct keys an entry exists exactly while a clone of its scope lives, a lookup gives that scope's own last target and any other key gives nothing |
| `Cancel.DroppedIsGone` | crates/havuz-pg/src/cancel.rs:139-143 | a key whose last clone was dropped finds nothing, whatever happens later |
| `Cancel.RunMatches` | crates/havuz-pg/src/cancel.rs:89-161 | the shared map refines one private slot per scope, over every run |
| `Cancel.IdsArePositiveAndDistinct` | crates/havuz-pg/src/cancel.rs:89-103 | process ids are positive on every run despite the wrapping counter, and the first 2^31-1 scopes have distinct keys whatever the secrets |
| `Cancel.IdsComeRound` | crates/havuz-pg/src/cancel.rs:89-103 | after that an id repeats, and only the secret tells the scopes apart |
| `Cancel.IdsAre` | crates/havuz-pg/src/cancel.rs:89-103 | the n-th scope of any run, counted from zero, has process id 1 + n modulo 2^31-1 |
| `Cancel.AimSays` | crates/havuz-pg/src/cancel.rs:105-109 | retargeting a known key changes what that key finds, and no other |
| `Cancel.CancelRegistry.Scope` | crates/havuz-pg/src/cancel.rs:89-103 | issues the next key and an empty entry |
| `Cancel.CancelRegistry.Retarget` | crates/havuz-pg/src/cancel.rs:105-109 | changes an existing entry and creates none |
| `Cancel.CancelRegistry.Unregister` | crates/havuz-pg/src/cancel.rs:111-113 | removes exactly that entry |

## Left out

- Sockets, TLS, SCRAM, timing and the backend handshake: input and output.
- A write that fails half-way through an exchange on a replica (crates/havuz-pg/src/txn.rs:442-456): the code keeps the messages and goes on with the next one on another backend, though its comment says that the exchange is replayed; not a step of the model.
- The server beyond a map of named statements, the replies on its line and a map of parameters: PREPARE, DEALLOCATE, DISCARD and `set_config` sent as SQL, savepoints (ROLLBACK TO counts as undoing the whole transaction, so the condition is on the safe side), open portals at eviction. A simple query, the parameter delta at checkout included, makes a server give up its unnamed statement, which the model's server keeps; `PreparedExamples.RetryRunsNeighboursUnnamed` needs an empty delta.
- Replies that come early because the client sends Flush, and notices: every answer waits until the sync point. A reset finds the line empty.
- Session mode, replica routing state, circuit breaker and pool engine; pinning appears as a guard of the parameter runs, where a reason to pin other than SET and RESET (LISTEN, temporary tables, advisory locks) is an input of the step (`pins`), and not in the statement runs.
- PreparedOwn.RunsOwnStatements: SHA-256 is a function parameter, and global names are assumed not to collide on the statements in use; of an unnamed statement nothing is said.
- PreparedRuns.OrderlyRunsAct: on orderly runs, and for a message that is no failing Parse, and no Parse, Close or replay after an error of the same exchange; a failing Parse of the unnamed statement harms nobody, and is not followed either; an unnamed statement is followed for one checkout only. It says what the server does; which answers reach the client is `PreparedRuns.AnswersReachIff`.
- PreparedRuns.AnswersReachIff: decides unless a message of havuz's own meets replies that were there when the backend was taken, or meets ParseComplete and CloseComplete a second time after it has put them out of order; then the client may read the right kinds or not (`PreparedOrder.TurnedTwice`).
- PreparedRuns.RetryKeeps: a retry that ends the session, in which a Parse fails or which sends a statement after an error is not orderly; `PreparedReplies.EndedRetryHandsOnReplies` shows what it leaves behind.
- PreparedRetry.RetriedIff: speaks of backends in step on which the pass drops no name, and of exchanges in which no statement fails by itself and no unnamed one is used that was never parsed; on others a replayable exchange may also be turned down.
- ParamRuns.StatementsSeePrivateSettings: what a text does to the server's parameters is what havuz reads in it; a statement havuz cannot read must pin the session, a tracked SET must stand alone, what is parsed must be what is executed, an exchange with a SET must neither leave a transaction open nor undo one, in the same message or another, nor commit by itself and then fail, and a backend that dies must not hold a transaction or a pin. A delta that the server refuses is not a step.
- ParamRuns.ReadOnlyInForce: what `set_config`, functions or a quoted name sent by a read-only session do to the setting is an effect that havuz does not read, and is assumed to leave it on; and the exchanges of all sessions, as long as they are not pinned, keep to the conditions of `ParamRuns.StatementsSeePrivateSettings`.
- Openers.OpenerRefusedIff: the words are made of letters, digits, `_` and commas and have single blanks between them.
- JdbcSession.Session.Execute: whether a text controls the transaction, and whether the agent describes or answers, are parameters; fetching rows and command tags are not modelled.
- JdbcSession.Session.Parse: the statement arrives as text; taking it from the message body is not modelled.
- Protocol.FirstColumnOfRow: the first value is shorter than 2^31 bytes.
- Listeners.ValidateListeners: which of several faults is reported first follows the code, but the wording of the errors is reduced to the names involved.
- Admin.State.Validate: the check of one pool's own settings is a parameter.
- Cancel.LookupIsPrivate: distinct keys are assumed beyond the first 2^31-1 scopes, since the secrets are random.
- Agreement of the scanners with PostgreSQL's own lexical rules, which the code simplifies on purpose.
- Session and client registries, result capture, traces, metrics, HTTP handlers, the dashboard, JDBC type tables, the JVM agent and configuration files: counters, plumbing and fixed tables.
