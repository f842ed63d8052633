# A model of the C2 key server

C2 is the key-management server of the E4 protocol. It keeps clients, topics, the links between them and
their encrypted keys in a relational store, tells remote devices about every change by publishing
protected commands through a message broker, rotates its own key pair through files, and announces
subscriptions to listeners. This project models those parts in Dafny and proves what their combination
guarantees.

## How the model is built

The server's state is a value (`Model.World`: tables, C2 private key, everything published, every event
dispatched, topics monitored), and every service call is a function on it that takes the faults of the call
as a function from steps to booleans (`Faults`). The statements about runs are about these functions.
`Service.E4Service`, `Database.GormDB` and `Keys.E4Key` are the objects of the source, with its fields,
branches and loops, and each of their methods is proved to do to the object's state exactly what the function
says. The same holds for `Events.Dispatcher`, `Events.Listener`, `Kafka.KafkaPubSubClient` and
`Mqtt.MqttPubSubClient`.

| file | contents |
|---|---|
| `Wrappers`, `Pages`, `Order`, `Faults`, `Crypto` | results, pages of a listing, `ORDER BY`, the faults of one call, the cryptographic library as unknown functions |
| `Store`, `Database` | the tables on values, the database object |
| `Model`, `Service` | the service calls on values, the service object |
| `Fanouts` | which clients the paged loops come to and what they publish to them |
| `Devices`, `Agreement`, `Boundaries` | what devices make of commands, agreement over whole runs, exactly which failures break it |
| `Assumptions`, `Scenarios` | a library that meets what the main result assumes; runs over it, to which the main result applies and in which devices and store part |
| `Outcomes` | what one call of each kind comes to: when it is done, what changes, and that nothing else does |
| `EventLog`, `Subscribers` | events against links |
| `Messages` | round trip of protected messages across other calls |
| `Rotation`, `Keys` | the key rotation step by step with crashes, the key and transaction objects |
| `Events`, `Channels` | dispatcher and listeners one call at a time, and `Send` interleaved |
| `Paging` | the command line listing and the start-up subscription |
| `Kafka`, `Mqtt` | stop channels and watchers, topic filters |

The libraries are functions of the `Crypto.Library` record; nothing is assumed of them except where a
statement asks for `Sound()` or a part of it: decryption undoes encryption, decoding undoes encoding,
opening undoes sealing, both ends of a key exchange reach the same secret, and hashed names have the
length of an ID. `Assumptions.SimpleIsSound` shows that these can hold together. Random keys, timestamps and the fate of every database, file and broker operation are
parameters. Devices receive what is published to them in order. Calls run one at a time.

## What the code does differently from what it says

- `NewC2Key` is documented to send the new public key to all clients (internal/services/e4.go:123), in batches of 500.
  `GetClientsRange` clamps to 100 rows, and a page shorter than the batch ends the loop, so only the first 100
  clients in name order are told. `Fanouts.C2TargetsAreAPrefix` gives the set, `Boundaries.RotationAgreesIff`
  with `Boundaries.ShippedSizesMissClients` says what that costs, and `Scenarios.LargeRotationParts` is a run with
  101 clients.
- The comment on the listener's `Send` says it never blocks (internal/events/listener.go:74-77). One sender
  alone waits, for ever, if the reader empties the whole buffer between its failed try and its pop
  (`Channels.OneSenderWaitsIff`, with a run for any number of senders in `Channels.SendersCanGetStuck`), and with
  two senders a push can wait (`Channels.PushesWaitIff`).
- The comment on `Rollback` (internal/crypto/c2key.go:39) breaks off before it says where the restored key comes
  from. The code takes it from memory, not from the backup file, and then removes that file; so does the model.
  Called after a Commit, which NewC2Key never does, it removes the only copy of the replaced key.
- Between the two assignments that end a Commit (internal/crypto/c2key.go:81-82) the public key in memory is still
  that of the replaced private key. Everywhere else it is the private key's own (`Rotation.PairHolds`).
- A Kafka `Connect` that fails for the producer leaves its consumer in place. A subscription made then
  can later be overwritten while its watcher still runs (`Kafka.HalfConnectedOverwrites`, and exactly when in
  `Kafka.OverwritesIff`).
- `NewTopicClient`, `RemoveTopicClient` and `NewClientKey` publish before they store. A failure in between is not
  undone; module `Boundaries` says exactly when that leaves devices and store apart, and `Scenarios` has a run for
  each.
- The count of a topic's clients drops its error and reads 0 (internal/models/database.go:543). NewTopic then is
  done and has told no one (`Scenarios.UncountedTopicParts`).
- `NewClient` for an ID that is registered already replaces its stored key without an error
  (internal/models/database.go:266-279); `Boundaries.NewClientAgreesIff` says when the device still fits.

## Model

| member | source | states |
|---|---|---|
| `Agreement.DevicesAgreeWithStore` | internal/services/e4.go:175-575 | Over every run of calls in which nothing fails after a publish: a linked client's device holds exactly the topic's current key, unless it obeyed a ResetTopics with no key for the topic after it, and then it holds none; no registered unlinked client holds the current key; every registered device opens what the server protects for it |
| `Agreement.CallKeepsAgreement` | internal/services/e4.go:175-1118 | Each of the fourteen calls keeps that agreement, with any failure before its first publish; a link to a device that was never sent the key is no agreement |
| `Scenarios.MainResultApplies` | internal/services/e4.go:175-442 | The hypotheses of DevicesAgreeWithStore hold together, for a run that registers a client, creates a topic, links them and rotates the C2 key; the device ends with the topic's key |
| `Devices.ResetSinceIff` | internal/services/e4.go:339-369 | A device counts as reset exactly if it obeyed a ResetTopics and no key for the topic after it |
| `Boundaries.LinkCallAgreesIff` | internal/services/e4.go:229-337 | Linking or unlinking loses agreement exactly when the device was told, the join table was not updated, and the two now differ |
| `Boundaries.NewTopicAgreesIff` | internal/services/e4.go:371-490 | A committed NewTopic keeps agreement exactly when every linked client was reached, except those reset since their last key |
| `Boundaries.NewClientKeyAgreesIff` | internal/services/e4.go:519-575 | NewClientKey loses agreement exactly when the device got its key, the row was not updated, and the stored halves differ |
| `Boundaries.RotationAgreesIff` | internal/services/e4.go:1051-1118 | A rotation keeps agreement exactly when it was committed and every client was told, or it was not and none was |
| `Boundaries.AllInformedIff` | internal/services/e4.go:1079-1105 | With no failed publish every client is told exactly when the batch size or the number of clients is within the query limit |
| `Boundaries.ShippedSizesMissClients` | internal/models/database.go:42 | With batches of 500 against a limit of 100 and no failed publish, everyone is told exactly up to 100 clients, and min(n, 100) are told |
| `Boundaries.NewClientAgreesIff` | internal/models/database.go:248-282 | NewClient for a registered ID keeps agreement exactly if it fails or the key is the stored half of the device's |
| `Scenarios.UnrecordedLinkParts` | internal/services/e4.go:229-285 | A reachable state and a failed commit after which a linked-by-message client parts from the store |
| `Scenarios.UnrecordedUnlinkParts` | internal/services/e4.go:287-337 | The same for unlinking |
| `Scenarios.UnrecordedKeyParts` | internal/services/e4.go:519-575 | The same for a client key that was sent and not stored |
| `Scenarios.UncountedTopicParts` | internal/models/database.go:536-545 | A reachable state in which NewTopic, its count lost, is done and parts a linked client from the store |
| `Scenarios.OverwrittenKeyParts` | internal/models/database.go:266-279 | A client registered a second time under another key parts from its device |
| `Scenarios.LargeRotationParts` | internal/services/e4.go:1079-1105 | With the shipped sizes and 101 registered clients, a rotation in which nothing fails leaves one behind |
| `Outcomes.ResetClientOutcome` | internal/services/e4.go:339-369 | Exactly when a reset is done; then the client's device holds no topic key and its last command is a ResetTopics; in every case no other device and nothing in the store changes |
| `Outcomes.SendClientPubKeyOutcome` | internal/services/e4.go:911-963 | Exactly when it is done; then the target's device alone hears the public half of the key in the source's device, under the source's name |
| `Outcomes.RemoveClientPubKeyOutcome` | internal/services/e4.go:965-1011 | The same for the removal of the source's name from the target's device |
| `Outcomes.ResetClientPubKeysOutcome` | internal/services/e4.go:1013-1049 | The same for the removal of all names from the target's device |
| `Outcomes.NewTopicClientOutcome` | internal/services/e4.go:229-285 | Exactly when it is done and which error is reported otherwise; then one link, one event and one device key are new, and nothing else |
| `Outcomes.RemoveTopicClientOutcome` | internal/services/e4.go:287-337 | The same for the end of a link |
| `Outcomes.NewClientOutcome` | internal/services/e4.go:175-208 | Exactly when a registration is done; then the client is found by its ID, with its name and key, and no other row changes |
| `Outcomes.RemoveClientOutcome` | internal/services/e4.go:210-227 | Exactly when a removal is done; then the client is not found, and no link or list names it, while all others stay; otherwise nothing changes |
| `Outcomes.RemoveTopicOutcome` | internal/services/e4.go:493-517 | The same for a topic, which is not monitored any more unless the broker failed |
| `Outcomes.NewTopicOutcome` | internal/services/e4.go:371-442 | Exactly when a topic is done; then it is monitored and its row decrypts to the key; no other topic, client or link changes |
| `Outcomes.LinkClientOutcome` | internal/services/e4.go:791-824 | Exactly when a link is done; then the source is in the list of the target, and no other entry of any list changes |
| `Outcomes.UnlinkClientOutcome` | internal/models/database.go:594-608 | Exactly that entry is taken away |
| `Outcomes.NewClientKeyOutcome` | internal/services/e4.go:519-575 | For every failure: how far the call got, whether the row changed and to which key, and what the device heard |
| `Outcomes.ListedClientsHearNewKeys` | internal/services/e4.go:577-611 | With no failure a new key is heard by its own device, and its public half by exactly the devices in the client's list, once each |
| `Outcomes.LinkedSourcesHearNewKeys` | internal/models/database.go:574-608 | After LinkClient the source's device hears the target's next new key; after UnlinkClient it does not |
| `Outcomes.NewC2KeyOutcome` | internal/services/e4.go:1051-1118 | Exactly when a rotation is done, which key is in force then, and which devices obeyed |
| `Outcomes.DeviceAndServerShareMessages` | internal/services/e4.go:1120-1190 | The server accepts exactly the messages that open under the key in a linked device, with the same clear text, and what it protects opens there |
| `Devices.FanOutReaches` | internal/services/e4.go:471-488 | A fan-out to distinct paired clients makes exactly the reached devices obey the command, once each |
| `Crypto.Library.CommandRoundTrip` | internal/crypto/keys.go:95-106 | A command protected for a client opens on its device as the same command, in both crypto modes |
| `Fanouts.FanOutIsExact` | internal/services/e4.go:444-491 | A paged fan-out comes to each client on a readable page once and to no other, for every count and batch size, and to nobody if the count was lost |
| `Fanouts.SendAllServes` | internal/services/e4.go:1196-1212 | A client that cannot be reached is skipped and costs the others nothing: one message each, in order |
| `Fanouts.SendAllSealed` | internal/crypto/keys.go:95-106 | Every message of a fan-out is the command protected for its recipient under the C2 key in memory |
| `Fanouts.C2TargetsAreAPrefix` | internal/services/e4.go:1079-1105 | NewC2Key comes to all clients once in name order if its batch fits the query limit, else to the first min(n, limit) |
| `Fanouts.NewTopicIsAllOrNothing` | internal/services/e4.go:371-442 | A failure up to the commit changes and publishes nothing; after it the row decrypts to the key that every published command carries |
| `Fanouts.NewTopicErrorTookEffectIff` | internal/services/e4.go:371-442 | A NewTopic that reports an error has put the new key in force exactly when all went well up to the commit and the subscription then failed |
| `Fanouts.NewClientKeyServes` | internal/services/e4.go:519-611 | A NewClientKey that is done sent its client the new key protected for the old one, and then the new public key, under the C2 key, to each linked client on a readable page that can be reached, once and in order |
| `EventLog.EventsReplayToLinks` | internal/services/e4.go:268-332 | Over every run, under every pattern of failures, a replayed pair of names is exactly a link of a registered client, on clients and topics never removed; and every link is replayed |
| `EventLog.LinkedById` | internal/models/database.go:464-485 | A name stands for one client: linked by name is linked by ID |
| `EventLog.CallKeepsEventsFaithful` | internal/services/e4.go:175-1118 | Every call keeps that relation, whatever fails |
| `Subscribers.ListenersCanReplayLinks` | internal/events/dispatcher.go:83-90 | A listener there from the start that always had room can rebuild the links from what it read and what still waits |
| `Messages.MessageRoundTrip` | internal/services/e4.go:1120-1190 | UnprotectMessage gives back what ProtectMessage took, with any calls in between that do not create or remove the topic |
| `Model.CallKeepsStore` | internal/models/database.go:248-380 | The store invariant (names fit IDs, names unique, links join live rows) survives every call, whatever fails |
| `Model.ValidateE4NameOrIDPair` | internal/services/e4.go:1226-1242 | Refused exactly for a hash mismatch or an ID of the wrong length; otherwise the ID fits the name |
| `Model.ValidatedPairIsStable` | internal/services/e4.go:1226-1242 | The pair a call settles on is accepted again unchanged |
| `Store.NonEmptyNamesUnique` | internal/models/database.go:248-282 | The name check and unique IDs alone make non-empty names unique |
| `Store.NewClientRefusedIff` | internal/models/database.go:248-282 | A well-formed new client is refused, when nothing fails, exactly if it is the second one without a name |
| `Store.RekeyPassesNameCheck` | internal/services/e4.go:558 | The InsertClient inside NewClientKey never fails the name check |
| `Store.InsertsStayConsistent` | internal/models/database.go:248-301 | Inserting a client or topic keeps the store invariant |
| `Store.DeletesStayConsistent` | internal/models/database.go:334-385 | Deleting a client or topic keeps it: no link is left to a row that is gone (what else is left, and what is not, is in `Outcomes`) |
| `Store.JoinsStayConsistent` | internal/models/database.go:464-608 | Linking and unlinking keep it (which pair is linked, and in whose list, is in `Outcomes`) |
| `Store.TwoViews` | internal/models/database.go:521-572 | A client is in a topic's listing exactly when the topic is in the client's; counts are the sizes of the listings |
| `Store.PagesJoin` | internal/models/database.go:432-458 | Two consecutive pages are one page, with no gap or repeat |
| `Store.ReadFromIsRest` | internal/models/database.go:559-572 | Reading page by page gives the whole rest of the listing |
| `Order.ListingUnique` | internal/models/database.go:439 | Ordering by a column with distinct values fixes the listing |
| `Order.BeforeIff` | internal/models/database.go:439 | The order of names: the first difference decides, by the smaller character or the shorter string |
| `Rotation.RunsAreSafe` | internal/crypto/c2key.go:53-99 | In every state of every run of rotations, with any file step failing or stopping part-way and restarts anywhere, the key in memory is in the key file or a backup, every replaced key stays in its own backup, and the public key is the private one's, or the replaced one's between Commit's two assignments |
| `Rotation.StepSane` | internal/crypto/keys.go:128-163 | Each single file operation and each assignment of a key keeps the invariant behind this |
| `Rotation.SaneIsRecoverable` | internal/crypto/keys.go:128-163 | In every phase the key in memory can be read back from disk |
| `Rotation.BackupPathsDiffer` | internal/crypto/keys.go:125-132 | Backups made at different times are different files |
| `Rotation.NewTimesAreFree` | internal/crypto/keys.go:128-133 | A time at which no backup was made leaves its backup file free |
| `Keys.E4Key.BeginsAtNewTimes` | internal/crypto/c2key.go:53-71 | At such a time, and with a disk that works, a transaction is handed out |
| `Service.RotateTwice` | internal/services/e4.go:1051-1118 | Two rotations at different times are both done when nothing fails, and both replaced keys are kept |
| `Keys.E4Key.EveryStateRecoverable` | internal/crypto/keys.go:128-163 | Every state the key object went through was recoverable and kept all replaced keys |
| `Keys.E4Key.BackupCurrentC2Key` | internal/crypto/keys.go:128-145 | Exclusive create and write of the backup; when it succeeds and what is on disk then |
| `Keys.E4Key.OverwriteC2PrivateKey` | internal/crypto/keys.go:147-163 | Truncate and write of the key file; no other file changes |
| `Keys.E4Key.NewC2KeyRotationTx` | internal/crypto/c2key.go:53-71 | A transaction is handed out exactly when the backup is whole and the new public key could be computed |
| `Keys.C2KeyRotationTx.Commit` | internal/crypto/c2key.go:73-85 | Called at any time: refused after a Rollback; on success memory and key file hold the new key, on failure memory is as before. In the rotation under way the old key joins the history |
| `Keys.C2KeyRotationTx.Rollback` | internal/crypto/c2key.go:87-99 | Called at any time: on success the key file holds the key in memory and the backup is gone. In the rotation under way, a failure leaves the backup in place |
| `Keys.NewE4PubKey` | internal/crypto/keys.go:67-93 | A key is loaded exactly from a readable file that passes validation, with its own public half |
| `Service.E4Service.NewC2Key` | internal/services/e4.go:1051-1118 | Done: memory and file hold the new key whose public half was published; not done: the key pair is unchanged; all published payloads are sealed with the old key; the loop terminates after finitely many failed reads |
| `Service.E4Service.SendAllPages` | internal/services/e4.go:1079-1105 | The offset loop comes to exactly the clients of `C2Targets`, and terminates by attempts left to fail and rows left to read |
| `Service.E4Service.SendTopicPages` | internal/services/e4.go:455-490 | The paged loop of a topic's fan-out sends to exactly the clients of `FanOut` |
| `Service.E4Service.SendLinkedPages` | internal/services/e4.go:589-608 | The same for linked clients |
| `Service.E4Service.NewTopic` | internal/services/e4.go:371-442 | Transaction, commit, fan-out and subscription refine the function on values |
| `Service.E4Service.NewTopicClient` | internal/services/e4.go:229-285 | Publish, link, dispatch in this order, with every error exit |
| `Service.E4Service.RemoveTopicClient` | internal/services/e4.go:287-337 | Publish, unlink, dispatch in this order, with every error exit |
| `Service.E4Service.NewClientKey` | internal/services/e4.go:519-575 | Publish, store, fan out, with every error exit |
| `Service.E4Service.NewClient` | internal/services/e4.go:175-208 | Validation, encryption and insert refine the function on values |
| `Service.E4Service.RemoveClient` | internal/services/e4.go:210-227 | The same for the removal of a client |
| `Service.E4Service.RemoveTopic` | internal/services/e4.go:493-517 | A failed unsubscription is ignored, the topic is deleted, no command is sent |
| `Service.E4Service.ResetClient` | internal/services/e4.go:339-369 | One ResetTopics command; the links stay |
| `Service.E4Service.SendClientPubKey` | internal/services/e4.go:911-963 | The source's stored key is sent to the target, in public-key mode only |
| `Service.E4Service.RemoveClientPubKey` | internal/services/e4.go:965-1011 | The source's name is sent to the target for removal |
| `Service.E4Service.ResetClientPubKeys` | internal/services/e4.go:1013-1049 | One ResetPubKeys command to the target |
| `Service.E4Service.LinkClient` | internal/services/e4.go:791-824 | The join table is updated only for two clients that exist |
| `Service.E4Service.UnlinkClient` | internal/services/e4.go:826-859 | The same for its removal |
| `Service.E4Service.ProtectMessage` | internal/services/e4.go:1120-1154 | The message is protected with the topic's decrypted key |
| `Service.E4Service.UnprotectMessage` | internal/services/e4.go:1156-1190 | And opened with it |
| `Database.GormDB.InsertClient` | internal/models/database.go:248-282 | Name check, insert or update of the key only |
| `Database.GormDB.InsertTopicKey` | internal/models/database.go:284-301 | Insert or update of the key |
| `Database.GormDB.DeleteClientByID` | internal/models/database.go:334-359 | The row goes with all its links, or nothing does |
| `Database.GormDB.DeleteTopicKey` | internal/models/database.go:361-385 | The same for a topic |
| `Database.GormDB.LinkClientTopic` | internal/models/database.go:464-485 | One pair is added, or nothing changes |
| `Database.GormDB.UnlinkClientTopic` | internal/models/database.go:487-519 | One pair is removed, or nothing changes |
| `Store.ClientsPage` | internal/models/database.go:432-444 | A client is on the page exactly if it is registered and has between offset and offset + min(count, 100) names before its own |
| `Store.TopicsPage` | internal/models/database.go:446-458 | The same for topics |
| `Store.TopicClientsPage` | internal/models/database.go:559-572 | The same among the clients linked to a topic, with no limit of 100 |
| `Store.RowsPageInOrder` | internal/models/database.go:439 | The rows of a page are in name order |
| `Events.ReadersSeeTheNewest` | internal/events/listener.go:74-85 | Over every run of adds, closes, dispatches and receives: read and waiting events are a subsequence of those dispatched while registered, the waiting ones are the newest, and with no reads exactly the last min(capacity, k) |
| `Events.NothingLostIffRoom` | internal/events/listener.go:78-85 | A reader misses nothing exactly when no dispatch found its buffer full |
| `Events.RemovesTheFirst` | internal/events/dispatcher.go:67-80 | Removal takes out the first occurrence only and keeps the order of the rest |
| `Events.ClosedListenersGetNothing` | internal/events/dispatcher.go:83-90 | A dispatch leaves the buffer of a listener that is not in the list as it was, and ends the buffer of any other with the event |
| `Events.PlacesCount` | internal/events/dispatcher.go:51-80 | Each add gives a listener one more place in the list, each close takes one of its places away, and others keep theirs |
| `Events.ReadingDrains` | internal/events/listener.go:64-66 | A reader that keeps reading gets what waits for it, oldest first |
| `Events.Listener.Send` | internal/events/listener.go:78-85 | A full buffer loses its oldest event |
| `Events.Listener.Close` | internal/events/listener.go:70-72 | Takes one place of the listener out of its dispatcher's list |
| `Events.NewListener` | internal/events/listener.go:47-61 | Registers a new empty listener, or stops on an unbuffered channel |
| `Events.Dispatcher.AddListener` | internal/events/dispatcher.go:51-57 | The listener is added last |
| `Events.Dispatcher.RemoveListener` | internal/events/dispatcher.go:67-80 | The search loop removes the first occurrence, or reports that there is none |
| `Events.Dispatcher.Dispatch` | internal/events/dispatcher.go:83-90 | Every listener gets the event once for each place it has in the list, and no other object changes |
| `Channels.EventsAreConserved` | internal/events/listener.go:78-85 | Over every interleaving of any number of senders and a reader: the buffer stays within its size, and sent = received + dropped + buffered + in hand, event by event |
| `Channels.OldestLeaveFirst` | internal/events/listener.go:78-85 | Over every interleaving: what was received or dropped is what was pushed first, in that order |
| `Channels.ReceivesAreReceived` | internal/events/listener.go:64-66 | Every receive gave the reader one event, and nothing else did |
| `Channels.OneSenderWaitsIff` | internal/events/listener.go:78-85 | One sender: push never waits; pop waits exactly when the reader took a whole buffer since the failed try, and then nothing can move |
| `Channels.PushesWaitIff` | internal/events/listener.go:74-85 | A push can be made to wait exactly when there are two senders, whatever the buffer size |
| `Channels.PopsWaitIff` | internal/events/listener.go:74-85 | A pop can be made to wait as soon as there is one sender |
| `Channels.StuckIff` | internal/events/listener.go:78-85 | For any number of senders, nothing moves exactly when all of them want to pop from an empty buffer |
| `Channels.SendersCanGetStuck` | internal/events/listener.go:78-85 | A run that ends so, for every buffer size and every number of senders |
| `Channels.WholeSendOffers` | internal/events/listener.go:78-85 | A sender nobody comes between does what `Send` as one step does |
| `Paging.ListClients` | internal/cli/commands/clients/list.go:82-106 | The listing loop prints what page-by-page reading of the wanted slice comes to, or the part before the first failed page |
| `Paging.ListingIsOneSlice` | internal/cli/commands/clients/list.go:82-106 | With pages of 100 that is exactly one slice of the table in name order |
| `Paging.SubscribeExisting` | pkg/c2/c2.go:222-248 | The start-up loop subscribes to what page-by-page reading of the topics comes to, or to the part before the first failure |
| `Paging.EveryTopicInOneBatch` | pkg/c2/c2.go:231-248 | With batches of 100 every topic is in exactly one batch |
| `Paging.VisitsAllIff` | internal/models/database.go:432-458 | Page-by-page reading comes to everything exactly when the page size or the table is within the query limit |
| `Kafka.NoChannelClosedTwice` | internal/protocols/kafka.go:92-185 | In every run, half-failed connections included: no stop channel is closed twice, and those in the map are open and distinct |
| `Kafka.ChannelsAreClosed` | internal/protocols/kafka.go:92-185 | In every run a channel has been closed exactly once unless it still is in the map or was overwritten there |
| `Kafka.UnsubscribeOutcome` | internal/protocols/kafka.go:162-185 | An unsubscription closes the topic's channel once, and no other |
| `Kafka.ResubscribeAfterStop` | internal/protocols/kafka.go:136-185 | Once its watcher has given the partition back, and not before, the same consumer can subscribe again |
| `Kafka.SubscribeOutcome` | internal/protocols/kafka.go:136-160 | Exactly when a subscription is done; then the topic has a new open channel with a running watcher |
| `Kafka.SubscribeAllOutcome` | internal/protocols/kafka.go:119-134 | Several subscriptions are done only if each is |
| `Kafka.ReconnectOutcome` | internal/protocols/kafka.go:59-117 | A Disconnect closes every channel of the map once and no other; a new connection can take every valid topic again |
| `Kafka.ConnectOutcome` | internal/protocols/kafka.go:59-90 | Exactly when a connection is made, and that its consumer is a new one that holds no partition |
| `Kafka.ValidTopicIff` | internal/protocols/kafka.go:213-226 | The accepted topics are the non-empty strings over Kafka's alphabet |
| `Kafka.OverwritesIff` | internal/protocols/kafka.go:136-160 | In every run, a subscription the broker library would accept loses a live channel exactly when the topic is in the map with a channel made for another consumer |
| `Kafka.OrderlyRunsNeverOverwrite` | internal/protocols/kafka.go:136-160 | If subscriptions are made only while connected, none overwrites a live channel |
| `Kafka.WholeRunsNeverOverwrite` | internal/protocols/kafka.go:59-160 | Nor does any where no Connect fails half-way |
| `Kafka.HalfConnectedOverwrites` | internal/protocols/kafka.go:59-90 | A run in which one made after a half-failed Connect is overwritten |
| `Kafka.StepSafe` | internal/protocols/kafka.go:228-285 | Every step of client and watchers keeps the invariant behind these |
| `Kafka.KafkaPubSubClient.Connect` | internal/protocols/kafka.go:59-90 | Refines the step on values, however far it gets |
| `Kafka.KafkaPubSubClient.Disconnect` | internal/protocols/kafka.go:92-117 | Closes every channel of the map once and empties it; if only the producer fails, the consumer is closed and the client stays connected |
| `Kafka.KafkaPubSubClient.SubscribeToTopic` | internal/protocols/kafka.go:136-160 | A new channel and watcher if the topic is valid and its partition free |
| `Kafka.KafkaPubSubClient.SubscribeToTopics` | internal/protocols/kafka.go:119-134 | One after the other, up to the first failure |
| `Kafka.KafkaPubSubClient.UnsubscribeFromTopic` | internal/protocols/kafka.go:162-185 | Takes the channel out of the map and closes it |
| `Kafka.KafkaPubSubClient.WatcherStops` | internal/protocols/kafka.go:272-282 | A closed channel makes the watcher give its partition back, an ended context leaves it taken |
| `Mqtt.ValidTopicsAreLiteral` | internal/protocols/mqtt.go:272-283 | An accepted topic used as a filter matches exactly the name equal to it, under section 4.7 of MQTT 3.1.1 |
| `Mqtt.ValidTopicIff` | internal/protocols/mqtt.go:272-283 | Refused are exactly the topics with a wildcard character in some level, and those whose first level begins with $SYS |
| `Mqtt.LiteralIff` | internal/protocols/mqtt.go:272-283 | A filter matches only itself exactly when it has no wildcard level |
| `Mqtt.MqttPubSubClient.SubscribeToTopics` | internal/protocols/mqtt.go:132-175 | All topics are checked first; then the client receives exactly what it did before and the requested topics |
| `Mqtt.MqttPubSubClient.SubscribeToTopic` | internal/protocols/mqtt.go:177-208 | One topic is added to what the client receives |
| `Mqtt.MqttPubSubClient.UnsubscribeFromTopic` | internal/protocols/mqtt.go:210-239 | One topic is taken away from it |

## Left out

- gRPC and HTTP servers, generated protocol code, configuration, logging, tracing and analytics: no state of their own.
- The cryptographic primitives, message freshness and the encoding of commands: unknown functions with the stated laws.
- SQL, GORM and migrations: the tables stand for them, with their unique indexes, and a failed transaction changes nothing. Lookups by a zero value, which GORM turns into lookups without a condition, and numeric primary keys are not modelled.
- The order of names is that of their characters; a database may collate them otherwise.
- Device firmware: what each command does to a device is an assumption (`Devices.Obey`), and so is delivery in order.
- A broker operation either fails and has no effect, or succeeds; a publish that timed out and was delivered is not modelled.
- Service calls that run concurrently on the same client, topic or key: the source takes no lock there, and calls run one at a time here. Only `Channels` and `Kafka` interleave.
- Service.E4Service.NewC2Key: reads may fail any finite number of times; if every read of a page fails for ever, the loop of the source never ends.
- Events carry no timestamp.
- Events.Dispatcher.RemoveListener: the shift of the list inside its backing array, which a reader without the lock could see, is not visible in a sequence.
- Events.Dispatcher.Dispatch: sends one listener after the other; several dispatches at once are in `Channels`, for one listener.
- Paging.ListClients: counts are unbounded integers; the source goes through 64-bit integers and floating point. Its copies for topics and links are not repeated.
- Negative offsets and counts, and batch sizes that are not positive, are excluded.
- Kafka.Subscribe: on a consumer that was closed the broker library may accept or refuse a subscription; the model allows both.
- The message loop of the Kafka watcher and the analysis of monitored messages: no effect on the state modelled.
- The GCP client is not part of this model.
