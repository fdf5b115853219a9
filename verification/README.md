# OT DMZ collector: a verified model

A Dafny model of a telemetry collector: it takes in events, removes duplicates, writes each event to an event log and
to a spool, queues it, forwards it over syslog in batches and checkpoints the spool. Beside the pipeline it keeps a
source catalog, statistics and live streams. The proofs say what survives crashes, failed sends and failed writes, what
the two indexes have to do with the log, and what the codec and the redactors preserve.

Two layers meet in every module. Code that changes state is written as classes and methods with its own loops
(`Spool`, `Queue`, `JSONLStore`, `Collector`, `SourceState`, `Catalog`, `Stats`, `StreamHub`), and each method is proved
equal to a function on values. The properties are then proved of those functions, over all inputs and all runs.

The parts, from the bottom up:

- `Text`, `JoinedText`, `Json`, `Wrappers`, `Sequences`, `SourceUtil`, `Event`, `Normalizer`: text, JSON trees, source
  types, the event codec, normalisation and enrichment. In the fields of events and documents: `SourceTypes` (the tables
  against each other), `Documents` (which field comes from which), `Identity` (what an ID depends on, and when two events
  share one) and `PreparedFields` (what preparation makes of what the sender wrote).
- `Spool`, `EventLog`, `Store`, `Queue`, `Batch`: the files, the event log, the channel and the order of a batch; `Queries`
  (which events a query selects) and `Priority` (in every pass of every run urgent events come first).
- `Delivery`: the pipeline as a transition system with one step for each operation and for each stage of the worker.
  Its theorems are `Books` (bookkeeping), `Watermark` (each step and the order of the spool), `Overtaking` (when the
  checkpoint passes an unsent record), `Losses` (what is stranded, in closed form, and what failures cost), `Capacity`
  (conditions under which nothing is), `Attempts` (one batch over many passes), `Turns` and `Liveness` (the worker's loop:
  how long it sleeps, and that it gets there), `Once` (when an event is sent twice), `Content` (what is sent is what
  was spooled) and `Operations` (what a refill, a new setting, a restart and a turn come to, in the fields of the state).
- `Collector`: the object itself, statement by statement, proved to take the steps of `Delivery` and to show exactly the
  events it takes in to statistics, catalog and streams (`Audience`; `Announcements` says which events these are and
  what each audience has of them afterwards).
- `Interleaving`: the same pipeline at the grain of its locks, with any number of threads; `InterleavedOrder` and
  `InterleavedLoss` (when the checkpoint stays behind what was sent, and what comes of a push out of order) and
  `InterleavedQueue` (when nothing is queued twice) are its theorems. `Uninterrupted` proves that each operation of
  `Delivery` is a run of these lock regions.
- `Catalog`, `CatalogLog`, `CatalogKeys`, `MergeLaws`, `CatalogViews`, `Replay`, `Reading`, `Counts`: the source catalog,
  its laws, its two reports, and its agreement with the event log as the collector itself reads it. In the fields of
  events and records: `SourceKeys` (which events and configured sources share a record), `SourceRecords` (what a record
  says of the events of its source) and `Listing` (which sources are listed, and what the summary adds up).
- `TopList`, `Stats`, `Redaction`, `Stream`, `Retry`: the remaining subsystems, with `Figures` (what the statistics say of
  the events) and `RedactionRules` (which keys and texts each redactor hides, and what compaction keeps).

## What the code does and does not guarantee

Some expected properties do not hold of the code as written. Where they depend on the state or the input, the exact
condition is proved, and a concrete run shows the departure.

- Unsent events come back from the spool except in two cases (`Watermark.UnsentIsRecoveredIff`). A record at offset 0
  never does, because the checkpoint starts at 0 and only records past it are read (`Watermark.FirstRecordIsNotRecovered`).
  And one line of 64 KiB or more makes every load of the spool fail: events unsent at a crash are then never sent again
  (`Losses.LongLineLosesUnsent`, `Losses.LongLineIsNotRecovered`).
- A record can be spooled and yet not be on its way: after a refused push, a refill that overflows or cannot scan the
  spool, or a configuration that enables forwarding without a refill (`Watermark.StepKeepsSafeIff`; in closed form
  `Losses.CrashGuardIff`, `Losses.ConfigureGuardIff`). By itself that loses nothing while the spool scans: the refill
  after a batch, after a saved configuration or at a restart brings it in, and after a restart the worker alone
  delivers everything spooled, with a backlog of any size (`Liveness.RestartDeliversEverything`). It is the next
  accepted event that does harm, when it is pushed ahead of such a record: exactly these pushes break the order
  (`Overtaking.StepKeepsOrderIff`, `Overtaking.RunIsInOrderIff`), and exactly after these can the worker alone bring
  the checkpoint past an unsent record (`Overtaking.IngestPassesIff`). So it is with any event accepted after a
  restart whose refill found no room for everything, once the worker has taken its first batch
  (`Overtaking.BacklogIsOvertaken`).
- When saving a configuration fails, the new setting is in force all the same but nothing is refilled; events spooled
  during a pause are then overtaken and lost for good (`Losses.FailedSaveLosesAnEvent`).
- An event whose append to the event log fails is refused as a duplicate until the process restarts
  (`Losses.FailedAppendClaimsTheId`, `Losses.FailedAppendBlocksTheId`). If it is the append to the spool that fails,
  or the process ends between the two appends, the event is refused and never forwarded for as long as restarts can
  scan the log (`Losses.FailedSpoolAppendLosesTheEvent`).
- Something sent is left to be sent again exactly by a pass that fails part of the way, and by a failed checkpoint write
  or a crash between the last send of a batch and its checkpoint, unless the batch is the very first record alone
  (`Once.StepKeepsOnceIff`).
- A line of 64 KiB or more in the event log makes a restart forget all known IDs (`Books.RestartKeepsBooksIff`,
  `Interleaving.StepKeepsUniqueIff`), so that an event can be stored twice (`Interleaving.UnscannedRestartRepeats`); the
  log repeats an ID exactly when a thread stores one that is stored already (`Interleaving.LogRepeatsIff`).
- At the grain of the locks, the thread of a push and the worker alone can go on to bring the checkpoint past an
  unsent record exactly when the push comes out of order (`InterleavedOrder.StepKeepsOrderIff`,
  `InterleavedLoss.PushPassesIff`). Two ingests at once can bring that about (`Interleaving.OvertakingLosesAnEvent`),
  and so can a single one between a new setting and the refill that belongs to it
  (`InterleavedOrder.ResumeRaceLosesAnEvent`).
- An event can be queued twice, or its ID stay in flight for good, exactly when a thread looks for an ID while another is
  on its way with it, or a batch is forgotten before its threads are done (`InterleavedQueue.StepKeepsExactIff`,
  `Interleaving.RefillCanDuplicate`); and a fast worker leaves the queue counter too high for good
  (`Interleaving.FastWorkerLeavesCounterHigh`).
- Two different events without IDs can get one ID, whatever the digest, when two of the fields it is made of hold a `|`
  (`Identity.BarsCanCollide`); with bars in one field at most they get one exactly when all six agree
  (`Identity.OneIdIff`). And the same event sent again is recognised exactly when it has a timestamp of its own
  (`Identity.RetryIsRecognisedIff`), although the comment at internal/event/model.go:137 means the ID for retries.
- A search finds a text with a blank in it also where it lies across two fields, and so in events that have it nowhere
  (`Queries.PhraseAcrossFields`); a text without a blank is found exactly where a field or a tag has it
  (`Queries.WordSearchSelects`).
- A saved setting that turns on Splunk alone fills the queue although the worker then sends nothing
  (`Operations.SettingTakesEffect`).
- Intrusion detection has the sourcetype `labshock:ot:ids`; the one that README.md:99 gives is never used
  (`SourceTypes.DocumentedMapping`). The OT collector is a service of the DMZ by its group but not by its Purdue zone, and
  its sourcetype is the unknown one (`SourceTypes.ZonesFollowGroups`, `SourceTypes.SourcetypesAre`).
- The live catalog and the one a restart rebuilds agree on a source exactly when the log can be scanned and holds, since
  the last start, none of its records whose spool append failed or whose severity or category is blank
  (`Reading.LiveIsReplayOfTheLog`, `Replay.LongLineEmptiesTheCatalog`, `Replay.BlankIsRecounted`).
- An event reads back from disk unchanged exactly when no field with a default is empty and no extra field has a known
  name (`Event.ReloadIsIdentityIff`); a severity or category of white space breaks this (`Normalizer.PreparedIsStorableIff`).
- `topOne` can miss the maximum, depending on map order, exactly when an empty key holds the strict maximum among
  others (`TopList.TopOneIsMaximalIff`); the statistics never count an empty key.
- The wait before a retry overflows 64 bits at attempt 214749 (`Retry.WaitIsSoundIff`).

## Assumptions

An append writes a whole line or nothing; a write of the checkpoint or of the configuration succeeds, leaves the file
alone or leaves it empty. A scan fails exactly when a line has 64 KiB or more, newline excluded. JSON text, RFC 3339
times, number formatting and the SHA-1 digest are functions passed in (`Lib`, `read`), with the assumptions they need
stated as preconditions (`Lib.Clock`, `Books.KeepsIds`, `Replay.ReadsAs`); the codec and the normaliser are shown to meet
the last two (`Reading.ReadBackKeepsIds`, `Reading.PreparedReadAs`). That the digest is injective is assumed by the laws
of `Identity` that say so, and by no others. The clock, the outcome of a send and the outcome of
a write are parameters of the step they affect.

## Model

| member | source | states |
|---|---|---|
| SourceUtil.NormalizeFixed | internal/sourceutil/source.go:11-55 | a normalised source type is its own normal form and a clean name without ':' or white space |
| SourceTypes.NamedIff | internal/sourceutil/source.go:11-55 | a text names a known type exactly when it is one of its spellings, but for case and white space; any other names none |
| SourceTypes.GroupsName | internal/sourceutil/source.go:57-128 | the group tells services of the DMZ and unknown types from the others, as the tests for services and for direct reporting do |
| SourceTypes.GroupsOfOne | internal/sourceutil/source.go:57-78 | every other group is that of one type |
| SourceTypes.ZonesFollowGroups | internal/normalizer/enricher.go:28-39 | the Purdue zone of a type is that of its group, but for the OT collector |
| SourceTypes.SourcetypesAre | internal/sourceutil/source.go:80-115 | the sourcetype of a type is made of the part of the plant it is in and its name; three types have the unknown one |
| SourceTypes.SourcetypesTellApart | internal/sourceutil/source.go:80-115 | types with one sourcetype are the same, unless it is the unknown one |
| SourceTypes.DocumentedMapping | internal/sourceutil/source.go:80-115 | the documented mapping holds for all types it names but intrusion detection |
| Event.ToMap | internal/event/model.go:146-170 | the loop over the extra fields builds the encoding: known fields last, so they win over extras of the same name |
| Event.EnsureDefaults | internal/event/model.go:110-144 | fills the empty fields in place, and an ID from the digest only when there is none; `Identity` says on which fields it depends and when two events share one |
| Event.ParseOne | internal/event/model.go:51-88 | the loop over the document restores known fields, tags and the unknown fields as extras |
| Event.ReloadFields | internal/event/model.go:51-170 | reading back an encoded event keeps every known field but for defaults, all tags, and every extra field with an unreserved key |
| Event.ReloadIsIdentityIff | internal/event/model.go:51-170 | an event survives being written and read back exactly when it is storable: defaulted fields filled, normal form, no extra under a known key |
| Event.ReloadKeepsId | internal/event/model.go:136-143 | reading an event back never recomputes an ID it has |
| Event.ReloadIsAProjection | internal/event/model.go:51-170 | what has been read back once is storable, and reading it back again at any later time changes nothing |
| Documents.DocumentFields | internal/event/model.go:146-170 | a document holds the fields of the event under their names |
| Documents.MoreDocumentFields | internal/event/model.go:146-170 | so for the rest of them, tags included |
| Documents.ExtraFields | internal/event/model.go:146-170 | any other field of the document is an extra field of the event, and none is lost unless it has a known name |
| Documents.ParsedFields | internal/event/model.go:51-88 | each field is read from the document field of its name, with its default and in its normal form |
| Documents.MoreParsedFields | internal/event/model.go:51-88 | so for the rest of them, tags included |
| Documents.ParsedExtra | internal/event/model.go:51-88 | all fields with other names, and only these, become extra fields as they are |
| Identity.SameTraitsSameId | internal/event/model.go:136-143 | the ID of an event without one depends on timestamp, type, address, message, raw text and category and on nothing else |
| Identity.OneFieldTellsApart | internal/event/model.go:136-143 | of two such events that differ in one of the six at most, whatever it holds, the IDs agree exactly when it agrees |
| Identity.MessageTellsApart | internal/event/model.go:136-143 | so another message or another raw text gives another ID |
| Identity.OneIdIff | internal/event/model.go:136-143 | with `|` in one field at most, two such events get one ID exactly when all six fields agree |
| Identity.BarsCanCollide | internal/event/model.go:136-143 | with `|` in two fields different events can get one ID |
| Identity.GivenFieldsAreKept | internal/event/model.go:110-144 | an ID and every other field that was given is kept; the rest get their defaults |
| Identity.RefusedIff | cmd/dmz-collector/main.go:165-202 | once an event without an ID was taken in, another is refused as its duplicate exactly when it was known before or all six fields agree |
| Identity.RetryIsRecognisedIff | internal/event/model.go:136-143 | an event sent again later gets the same ID exactly when it carries a timestamp |
| Normalizer.ValidateAndNormalize | internal/normalizer/validator.go:12-31 | the statements compute the normal form, or the error for a bad timestamp |
| Normalizer.ApplySourceRules | internal/normalizer/validator.go:33-63 | the firewall and sourcetype rules, written tag by tag, are one layer of tags and a category |
| Normalizer.EnrichDMZ | internal/normalizer/enricher.go:11-94 | the tag writes in their order amount to one layer; deciding on high value after them sees the same event as before them |
| Normalizer.FirewallCategoryByPiece | internal/normalizer/validator.go:57-63 | joining the texts with blanks cannot create or hide an alarm word: the category is decided piece by piece |
| Normalizer.FirewallNameDoesNotMatter | internal/normalizer/validator.go:33-63 | every spelling of the firewall type yields the same category, so computing it again from the normal name is safe |
| Normalizer.NormalizedSettlesIff | internal/normalizer/validator.go:12-55 | a normalised event is a fixed point of normalisation exactly when neither severity nor category is blank |
| Normalizer.SettledIsFixed | internal/normalizer/validator.go:12-55 | normalisation leaves a settled event alone, for any clock |
| Normalizer.HighValueIsStable | internal/normalizer/enricher.go:60-94 | enrichment does not change whether an event counts as high value |
| Normalizer.EnrichTwice | internal/normalizer/enricher.go:11-26 | enriching again changes only the reception time tag |
| Normalizer.PreparedIsProjectionIff | internal/normalizer/validator.go:12-63 | normalise and enrich applied to their own output change only the reception tag, exactly when severity and category are not blank |
| Normalizer.PreparedIsStorableIff | internal/normalizer/validator.go:12-31 | a prepared event has an ID and reads back unchanged exactly when severity and category are not blank and no extra uses a known key |
| PreparedFields.RejectedIff | internal/normalizer/validator.go:12-31 | an event is rejected exactly when its timestamp, the time of arrival if it has none, is no time |
| PreparedFields.PlainFields | internal/normalizer/validator.go:12-31 | every field of a prepared event but ID and tags, in the fields its sender gave |
| PreparedFields.SendersTags | internal/normalizer/validator.go:33-55 | apart from the keys the collector writes, the tags are the sender's |
| PreparedFields.CommonTagsAre | internal/normalizer/enricher.go:11-26 | collector, time of preparation, zone and index hint are set whatever the sender had there |
| PreparedFields.HintsAre | internal/normalizer/enricher.go:40-58 | the index an event belongs in, by category, unless its type or severity makes it a security matter |
| PreparedFields.SourcetypeTag | internal/normalizer/enricher.go:18-20 | a firewall's sourcetype is always the same; another event keeps a text of its own that is not blank or the unknown one, and else gets that of its type |
| PreparedFields.HighValueTag | internal/normalizer/enricher.go:60-94 | the tag by which events are sent first marks exactly the urgent ones and those whose sender set it |
| PreparedFields.UrgencyIsTheSenders | internal/normalizer/enricher.go:60-94 | urgency is decided by severity, category, type and two tags as the sender wrote them |
| PreparedFields.FirewallCategoryIs | internal/normalizer/validator.go:57-73 | a firewall's event is a security matter exactly when message, raw text or an action tag has one of five words, in whatever case |
| Spool.Spool.Append | internal/buffer/spool.go:36-61 | returns the size of the file as offset and adds one line there, or fails and changes nothing |
| Spool.Spool.LoadPending | internal/buffer/spool.go:63-95 | the scan returns the records past the checkpoint, or an error when a line is too long |
| Spool.Spool.MarkForwarded | internal/buffer/spool.go:97-109 | overwrites the checkpoint, whatever it was; a failed write leaves it or empties it |
| Spool.AppendKeepsForm | internal/buffer/spool.go:36-61 | after an append every offset is still the total length of the lines before it |
| Spool.OffsetsIncrease | internal/buffer/spool.go:36-61 | offsets strictly increase, lie inside the file, and only the first is 0 |
| Spool.PendingAreThePast | internal/buffer/spool.go:63-95 | the pending records are exactly the lines whose offset exceeds the checkpoint |
| Spool.PendingIncrease | internal/buffer/spool.go:63-95 | pending records come in file order |
| Operations.FileSizeIs | internal/buffer/spool.go:36-61 | a file is as long as the texts of its lines and a line end for each |
| Queue.Queue.Push | internal/buffer/queue.go:35-45 | refuses exactly when the channel is full; otherwise appends and counts one |
| Queue.Queue.PopBatch | internal/buffer/queue.go:47-78 | takes the oldest events, as many as there are up to the batch size, in order |
| Queue.Queue.MarkSuccess | internal/buffer/queue.go:80-89 | moves a batch from queued to forwarded, never below zero |
| Queue.Queue.MarkFailure | internal/buffer/queue.go:91-96 | counts failed events and records the time, and leaves the channel alone |
| Batch.PrioritizedIsStableSort | cmd/dmz-collector/main.go:595-598 | sorting keeps the events, puts high value first, keeps the order inside each class, and is idempotent |
| Batch.StableSortIsUnique | cmd/dmz-collector/main.go:595-598 | any ordered and stable rearrangement is this one, whatever algorithm the library uses |
| Batch.BatchOffset | cmd/dmz-collector/main.go:906-918 | the loop finds the maximum offset of the batch |
| Batch.MaxOffsetIsGreatest | cmd/dmz-collector/main.go:906-918 | that maximum is attained and bounds every known offset; there is none exactly when no offset is known |
| Batch.RetriesKeepTheCheckpoint | cmd/dmz-collector/main.go:595-598 | reordering a batch does not change the offset it earns |
| Priority.UrgentComeFirst | cmd/dmz-collector/main.go:595-598 | a batch of prepared events, as they came in or as read back, is sent in the order of its urgent events and then of the others, where senders set no priority of their own |
| Priority.TaggedComeFirst | cmd/dmz-collector/main.go:1136-1141 | whatever a batch holds, the events tagged as of high value come first |
| Priority.PassesSendUrgentFirst | cmd/dmz-collector/main.go:571-619 | in every run into which only such events come, with any crashes, refills and failures, each pass sends the first so many of that order: no urgent event after one that is not |
| Books.EnqueueKeepsQueue | cmd/dmz-collector/main.go:889-904 | as one step, enqueuing keeps `inflight` equal to the IDs of batch and channel, each there once, and the counter exact |
| Books.RefillKeepsBooks | cmd/dmz-collector/main.go:874-887 | so does a refill, which touches nothing but the queue, `inflight` and the offsets |
| Books.IngestKeepsBooks | cmd/dmz-collector/main.go:165-202 | an ingest, with any outcome of its two appends, keeps one log record and one spool line per ID and spooled IDs among the stored ones |
| Books.RestartKeepsBooksIff | cmd/dmz-collector/main.go:937-956 | a restart keeps all of this exactly when every line of the event log can be scanned |
| Books.CountKeepsBooks | internal/buffer/queue.go:80-89 | with pushes as one step, the counter never has to stop at zero |
| Books.StepKeepsBooksIff | cmd/dmz-collector/main.go:165-202 | every step keeps the bookkeeping exactly when it is not a restart that cannot scan the event log |
| Watermark.EnqueueAllKeepsOrder | cmd/dmz-collector/main.go:874-904 | enqueuing pending records in file order keeps channel order and spool order in agreement |
| Watermark.EnqueueAllPlaces | cmd/dmz-collector/main.go:874-904 | afterwards exactly the records that were not left out are on their way |
| Watermark.SentOrRecoverable | internal/buffer/spool.go:63-95 | every record after the first has been sent or lies past the checkpoint |
| Watermark.RefillPlacesIff | cmd/dmz-collector/main.go:874-887 | after a refill everything spooled is on its way exactly when what was left out had been sent |
| Watermark.IngestKeepsOrderIff | cmd/dmz-collector/main.go:165-202 | an ingest keeps books and order exactly when it does not push past a spooled record that is neither sent nor on its way |
| Watermark.IngestKeepsSafeIff | cmd/dmz-collector/main.go:165-202 | with everything placed, an ingest keeps it so exactly when its push is not refused |
| Watermark.ConfigureKeepsOrder | cmd/dmz-collector/main.go:460-469 | taken as one step, a configuration change keeps the order whether it is saved or not, and says when everything is placed afterwards |
| Watermark.ConfigureKeepsSafeIff | cmd/dmz-collector/main.go:460-469 | it keeps everything placed exactly when, if it enables forwarding, nothing unsent is left waiting |
| Watermark.MarkKeepsOrder | cmd/dmz-collector/main.go:906-922 | a checkpoint write, successful or not, never passes an unsent record while the order holds |
| Watermark.RestartKeepsOrderIff | cmd/dmz-collector/main.go:937-956 | a crash and restart keep the order exactly when the event log can be scanned, however many records the refill has no room for |
| Watermark.RestartKeepsSafeIff | cmd/dmz-collector/main.go:937-956 | they keep everything placed exactly when the log scans and the refill leaves nothing unsent behind |
| Watermark.StepKeepsSafeIff | cmd/dmz-collector/main.go:571-619 | any step keeps order and, with forwarding on, everything spooled on its way exactly when it strands nothing while forwarding is enabled, and a restart can scan the log |
| Watermark.RunIsSafeIff | cmd/dmz-collector/main.go:571-619 | that holds in every state of a run exactly when every step of it is guarded so |
| Watermark.UnsentIsRecoveredIff | internal/buffer/spool.go:63-95 | while nothing unsent is passed, loading the pending records gives back an unsent event exactly when no spool line is too long to scan and the event is not the very first record |
| Watermark.FirstRecordIsNotRecovered | internal/buffer/spool.go:67-87 | in no state does the spool give back the record at offset 0 |
| Watermark.NothingIsLost | cmd/dmz-collector/main.go:571-619 | in every run that strands nothing, with any crashes, failed sends and failed checkpoint writes: everything the checkpoint passed has been sent; what is unsent comes back exactly when the spool can be scanned; and with forwarding on it is queued or in the batch |
| Overtaking.StepKeepsOrderIff | cmd/dmz-collector/main.go:571-619 | any step keeps books and order exactly when it is neither a push that overtakes an unplaced record nor a restart that cannot scan the event log |
| Overtaking.RunIsInOrderIff | cmd/dmz-collector/main.go:571-619 | a run is in order in every state exactly when no step of it is one of these |
| Overtaking.NothingIsPassed | cmd/dmz-collector/main.go:571-619 | in every such run, with refused pushes, refills that overflow, failed saves, crashes with any backlog, failed sends and writes: what the checkpoint passed has been sent, and what is unsent comes back exactly when the spool can be scanned |
| Overtaking.IngestPassesIff | cmd/dmz-collector/main.go:165-202 | from a state in order, an ingest can be followed by steps of the worker alone that bring the checkpoint past an unsent record exactly when it pushes past a spooled record that is not on its way |
| Overtaking.BacklogIsOvertaken | cmd/dmz-collector/main.go:937-956 | after a restart whose refill leaves something unsent out, any event accepted once the worker has taken its first batch is such a push |
| Losses.LeftOutCount | internal/buffer/queue.go:35-45 | a refill leaves out exactly as many records as exceed the free slots |
| Losses.RefillIsCompleteIff | cmd/dmz-collector/main.go:874-887 | a refill is complete exactly when nothing waits, or the spool scans and the waiting records fit |
| Losses.LeftOutIsTheRest | cmd/dmz-collector/main.go:874-904 | what enqueuing leaves out is the waiting records after the first free slots, in file order |
| Losses.CrashGuardIff | cmd/dmz-collector/main.go:937-956 | a crash leaves everything placed exactly when the log scans and, with forwarding coming up enabled, all but the first capacity records past the checkpoint have been sent, or all of them if the spool does not scan |
| Losses.ConfigureGuardIff | cmd/dmz-collector/main.go:460-469 | a configuration change leaves everything placed exactly when, if it enables forwarding, what overflows its refill, or waits without one, has been sent |
| Losses.LongLineLosesUnsent | internal/buffer/spool.go:79-93 | with one spool line too long to scan, an event unsent at a crash is never sent in any run that follows |
| Losses.LongLineIsNotRecovered | internal/buffer/spool.go:79-93 | a concrete guarded run: an event whose line fits the log but not the spool is queued, and a crash loses it for good |
| Capacity.ModestIsGuarded | cmd/dmz-collector/main.go:571-619 | while the backlog (in flight or past the checkpoint) fits the channel, an input with short lines and no failed save of an enabling configuration strands nothing |
| Capacity.FittingRunLosesNothing | cmd/dmz-collector/main.go:571-619 | in every run, however long, whose backlog fits the channel at each step, whatever crashes and fails: the checkpoint passes nothing unsent and everything unsent after the first record comes back |
| Capacity.ModestRunLosesNothing | cmd/dmz-collector/main.go:571-619 | so it is for every run that takes in no more events than the channel holds: a condition on the inputs alone |
| Losses.FailedSaveLosesAnEvent | cmd/dmz-collector/main.go:460-469 | a concrete run in which a failed save of the resuming configuration leaves an event unsent, passed by the checkpoint and unrecoverable |
| Losses.FailedAppendBlocksTheId | cmd/dmz-collector/main.go:172-182 | an ID claimed but not stored is never stored for as long as the process lives, whatever steps follow |
| Losses.FailedAppendClaimsTheId | cmd/dmz-collector/main.go:172-182 | a failed append brings that state about; a restart that can scan the log ends it |
| Losses.FailedSpoolAppendLosesTheEvent | cmd/dmz-collector/main.go:183-189 | an event stored whose spool append fails is refused, not spooled and not sent in any run that follows whose restarts scan the log |
| Liveness.TurnProgress | cmd/dmz-collector/main.go:571-619 | a turn whose sends succeed makes the records in flight weigh less, read as a binary number with the oldest record first, refill included, and keeps whatever is not yet on its way within reach of a later refill |
| Liveness.TurnsDeliverEverything | cmd/dmz-collector/main.go:571-619 | while the order holds and forwarding is on, with a backlog of any size beyond the channel if the spool scans, turns that write their checkpoints, enough of which succeed, leave batch and channel empty and everything spooled after the first record sent, whatever the batch sizes and however many passes fail in between |
| Liveness.RestartDrains | cmd/dmz-collector/main.go:937-956 | a restart that finds forwarding enabled and can scan log and spool leads to that condition from every state in order, whatever the backlog |
| Liveness.ResumeDrains | cmd/dmz-collector/main.go:460-469 | so does a saved configuration that enables forwarding, between two turns |
| Liveness.RestartDeliversEverything | cmd/dmz-collector/main.go:571-619 | hence after every such crash the turns send everything spooled after the first record |
| Liveness.WorkerDeliversEverything | cmd/dmz-collector/main.go:571-619 | such turns exist for every batch size |
| Turns.TurnIs | cmd/dmz-collector/main.go:571-619 | one turn of the loop amounts to pop, send, count, checkpoint, forget and refill, or to the part of them it gets to |
| Turns.SleepsAreWaits | cmd/dmz-collector/main.go:600-616 | over any turns the worker sleeps as the outcomes of its passes say, the attempt count restarting with each success |
| Turns.SleepsAreBoundedIff | cmd/dmz-collector/main.go:600-616 | so its sleeps are in bounds exactly when no streak of failures gets past the limit, and a failure right after a success sleeps 200 ms |
| Attempts.BatchEndsIff | cmd/dmz-collector/main.go:571-619 | short of a crash, a step takes a batch away exactly when it forgets a checkpointed batch; every other step keeps its events |
| Attempts.OnePassSendsTheBatch | cmd/dmz-collector/main.go:600-630 | in every run, a batch that counts as delivered is the tail of what was sent: one pass sent all of it in order |
| Attempts.HeldBatchIsKept | cmd/dmz-collector/main.go:571-619 | over any run that neither crashes nor ends the batch, its events and the offset it earns stay the same |
| Attempts.CheckpointIsTheBatchs | cmd/dmz-collector/main.go:906-922 | however many passes fail and whatever is ingested meanwhile, the checkpoint written is the greatest offset among the events as popped |
| Attempts.RefillTwice | cmd/dmz-collector/main.go:539-542 | a second refill enqueues nothing, after any steps in between that take nothing out, leave checkpoint and in-flight set alone and offer what they accept |
| Once.StepKeepsOnceIff | cmd/dmz-collector/main.go:571-619 | a step in order leaves nothing sent to be sent again exactly when it is not a pass that fails after its first event, nor a failed checkpoint write or a crash between the last send of a batch and its checkpoint, the batch of the very first record alone excepted |
| Once.RunIsSingleIff | cmd/dmz-collector/main.go:571-619 | a run is in order with nothing to be sent again in every state exactly when every step of it is guarded so |
| Once.NothingIsSentTwice | cmd/dmz-collector/main.go:571-619 | in such a run, with crashes between batches, passes that fail at once, refills and saves of any outcome, no ID is sent twice |
| Once.FailedPassRepeats | cmd/dmz-collector/main.go:595-616 | a pass that fails further on is followed by one that starts with the events it has sent |
| Operations.EnqueueAllFills | cmd/dmz-collector/main.go:874-904 | enqueuing puts the records not in flight into the channel, in order, as many as it has room for, and changes nothing else |
| Operations.RefillFills | cmd/dmz-collector/main.go:874-887 | so does a refill with the records past the checkpoint, unless a line of the spool is too long |
| Operations.SettingTakesEffect | cmd/dmz-collector/main.go:460-469 | a new setting is in force at once, saved or not; what waits goes into the queue exactly if it was saved, is not paused and turns on either way of forwarding |
| Operations.RestartIs | cmd/dmz-collector/main.go:937-956 | a restart keeps the files, takes the setting and the known IDs from them, and has in a fresh queue, if the setting has the worker send, the records past the checkpoint that fit |
| Operations.CheckpointIs | cmd/dmz-collector/main.go:906-922 | a checkpoint write of a counted batch leaves the greatest offset known of its events, what was there if it fails at once, or 0 if it leaves the file empty |
| Operations.EmptiedReadsAgain | internal/buffer/spool.go:97-109 | after a write that leaves the file empty every record but the first is read again |
| Operations.ScansIff | internal/buffer/spool.go:63-95 | both files can be read exactly if every line is shorter than 64 KiB |
| Operations.BatchIs | internal/buffer/queue.go:47-78 | a turn works on the batch left over, or on the oldest events, one at least and no more than asked for |
| Operations.TurnReports | cmd/dmz-collector/main.go:571-619 | what a turn sends, keeps and counts: nothing while forwarding is off, the first events of the order on a failure, the whole batch on success |
| Operations.SentIsForwarded | cmd/dmz-collector/main.go:571-619 | over any series of turns all that is sent is counted as forwarded but for what failed passes sent |
| Content.OnlySpooledEventsAreSent | cmd/dmz-collector/main.go:621-630 | in every run of the pipeline everything sent is a spooled event as ingested or as read back, and the same event when reading back is exact |
| Store.JSONLStore.Append | internal/storage/jsonl.go:39-59 | adds one record at the end, or fails and changes nothing |
| Store.JSONLStore.ReadFiltered | internal/storage/jsonl.go:61-99 | returns the newest matching events up to the limit, or an error when a line is too long; `Queries` says in the events' fields which ones match |
| Store.JSONLStore.ScanNewest | internal/storage/jsonl.go:72-98 | the sliding window of the scan is the end of the filtered log |
| Store.JSONLStore.ReadByID | internal/storage/jsonl.go:101-129 | returns the first record with the ID, an error if an unscannable line comes before it |
| Store.JSONLStore.LoadIDSet | internal/storage/jsonl.go:131-160 | collects the non-empty IDs of the log |
| Store.JSONLStore.LoadAll | internal/storage/jsonl.go:162-189 | returns every event in file order |
| Store.QueryReturnsNewest | internal/storage/jsonl.go:61-99 | a query returns a suffix of the log's matches in file order: no older match is preferred to a newer one |
| Store.LookupIsExact | internal/storage/jsonl.go:101-160 | with unique IDs, a lookup succeeds exactly on the ID set and returns the only record |
| Store.FirstMatchIsFirst | internal/storage/jsonl.go:101-129 | what a lookup returns, its miss and its error, in terms of positions in the log |
| Queries.QuerySelects | internal/storage/jsonl.go:191-222 | a query selects exactly the events that agree with each field it fills in, up to case, and have the search text in a field, in a tag or across joined fields |
| Queries.WordSearchSelects | internal/storage/jsonl.go:205-220 | for a search text without a blank: in one of eight fields, a tag key or a tag value |
| Queries.PhraseAcrossFields | internal/storage/jsonl.go:205-220 | a text with a blank selects an event that has it nowhere |
| Queries.CombinedQuery | internal/storage/jsonl.go:191-222 | a query selects what its one-field queries select one after the other, in log order |
| Queries.AnswerIs | internal/storage/jsonl.go:61-99 | the answer has selected events only, no more than the limit, 100 if none is given, and all there are from some point of the log on; if it is not full there are no others |
| Collector.Collector.Start | cmd/dmz-collector/main.go:937-956 | starting on existing files, whatever they hold, yields the state after a crash in the model |
| Collector.Collector.EnqueueIfNeeded | cmd/dmz-collector/main.go:889-904 | takes the enqueue step and reports whether the state changed |
| Collector.Collector.EnqueuePendingFromSpool | cmd/dmz-collector/main.go:874-887 | the loop over the pending records is the refill step |
| Collector.Collector.MarkBatchForwarded | cmd/dmz-collector/main.go:906-922 | writes the batch's maximum offset, or nothing when no offset is known |
| Collector.Collector.ForgetInflight | cmd/dmz-collector/main.go:924-930 | removes exactly the batch's IDs from `inflight` |
| Collector.Collector.ForwardBatch | cmd/dmz-collector/main.go:621-630 | sends the events in order up to the first failure |
| Collector.Collector.UpdateForwardingConfig | cmd/dmz-collector/main.go:460-469 | takes the configure step, with a save that succeeds, fails, or empties the file |
| Collector.Collector.ForwardWorkerTurn | cmd/dmz-collector/main.go:571-619 | one turn of the worker's loop is the run of its steps; a failed pass sleeps for the back-off of its attempt and leaves its error and one more failed batch, any other turn neither; `Operations.TurnReports` says what it sends and counts, `Priority` in which order |
| Collector.Collector.Announce | cmd/dmz-collector/main.go:192-195 | statistics, catalog and streams each take their step for the event; `Announcements` says what each has of a batch afterwards |
| Collector.Collector.Take | cmd/dmz-collector/main.go:172-201 | claims, appends, spools, announces and enqueues as the ingest step does, announcing exactly the events taken in, and reports what happened |
| Collector.Collector.IngestOne | cmd/dmz-collector/main.go:165-202 | an invalid event is rejected with its error and changes nothing; any other takes the ingest step on its prepared form |
| Collector.Collector.IngestBatch | cmd/dmz-collector/main.go:138-158 | the loop's counters, the list of errors and the resulting state are those of the events one by one, each at its own time |
| Collector.BatchCounts | cmd/dmz-collector/main.go:138-158 | accepted, rejected and duplicates add up to the batch, with one error per rejected event; queued is at most accepted; spool and channel grow by exactly the accepted and queued ones |
| Announcements.BatchIsLogged | cmd/dmz-collector/main.go:138-202 | the new lines of the spool are, in order, of the valid events the first of each ID not known before whose appends both succeed; known from then on are all IDs of valid events |
| Announcements.BatchIsStored | cmd/dmz-collector/main.go:165-202 | the new lines of the event log are these and those whose spool append fails |
| Announcements.BatchIsTold | cmd/dmz-collector/main.go:138-158 | the sender is told the number of duplicates, and for each rejected event why, in order |
| Announcements.NothingTakenNothingShown | cmd/dmz-collector/main.go:165-202 | a batch that adds nothing to the spool shows nothing to anyone |
| Announcements.SpoolIsHeardOf | cmd/dmz-collector/main.go:165-202 | whatever is ingested, the statistics count one event for each new line of the spool, and the catalog comes to know the IDs of these and no others |
| Announcements.BatchIsCounted | cmd/dmz-collector/main.go:192-193 | the statistics count exactly the events in the new spool lines, each at its own time |
| Announcements.BatchIsObserved | cmd/dmz-collector/main.go:194 | the catalog observes exactly these, in order |
| Announcements.BatchIsReceived | cmd/dmz-collector/main.go:195 | every open stream gets these in order as far as they fit into its 128 places, and no other channel changes |
| Announcements.StreamsShowTheSpool | internal/api/stream.go:39-48 | a client with room for the new lines of the spool gets exactly their events, in order |
| Store.LoadedIds | internal/storage/jsonl.go:131-160 | the set collected holds exactly the IDs the lines read back with |
| Reading.ReadBackIsSound | internal/event/model.go:51-88 | reading back keeps every ID, and is the identity on prepared events with severity, category and no reserved extras |
| Reading.ReloadOfPrepared | internal/event/model.go:110-144 | a prepared event reads back, whenever it is read, with defaults for a blank severity or category and without extras under known names, and otherwise unchanged |
| Reading.SightOfReloadIff | internal/sourcecatalog/catalog.go:167-244 | the catalog sees a prepared event read back exactly as it saw it live, display document included, if and only if neither severity nor category is blank |
| Reading.BlankIsReadAsInfo | internal/normalizer/validator.go:24-25 | a severity of white space is seen as empty live and as info when read back |
| Reading.LiveIsReplayOfTheLog | cmd/dmz-collector/main.go:165-202 | in every run of the collector with its own codec and normaliser, whose restarts can scan the log, the live counters of a source are those a restart would rebuild exactly when the log scans and, since the last start, none of its records failed the spool append or came in with a blank severity or category |
| Interleaving.EveryInterleaving | cmd/dmz-collector/main.go:165-202 | over every lock-granular interleaving with any crashes: no push is lost and the queue counter never reports too few; one log record and one spool record per ID, and spooled IDs stored, when every restart on a non-empty log can scan it, which is exactly when stored IDs stay known throughout |
| Interleaving.StepKeepsUniqueIff | cmd/dmz-collector/main.go:171-189 | a lock region or crash keeps log and spool free of repeated IDs, and every stored ID known, exactly when it is not a restart that cannot scan a non-empty log |
| Interleaving.StepRepeatsIff | cmd/dmz-collector/main.go:171-182 | in any state, a lock region makes the event log repeat an ID exactly when it appends one the log holds already |
| Interleaving.LogRepeatsIff | cmd/dmz-collector/main.go:171-182 | an interleaving leaves the event log with a repeated ID exactly when one of its steps does that |
| Interleaving.UnscannedRestartRepeats | cmd/dmz-collector/main.go:937-946 | a concrete schedule with such a restart stores one event twice |
| Interleaving.StepKeepsCount | internal/buffer/queue.go:35-89 | every lock region keeps pushes equal to forwarded plus outstanding, and the counter within the uncounted pushes and what clamping added |
| Interleaving.FastWorkerLeavesCounterHigh | internal/buffer/queue.go:37-40 | a concrete schedule that leaves the counter at one and an ID in flight when nothing is queued |
| Interleaving.RefillCanDuplicate | cmd/dmz-collector/main.go:889-904 | a concrete schedule that queues the same event twice |
| Interleaving.OvertakingLosesAnEvent | cmd/dmz-collector/main.go:165-202 | a concrete schedule of two ingests, a worker and a crash after which the checkpoint has passed an unsent record |
| InterleavedOrder.PushKeepsRouteIff | cmd/dmz-collector/main.go:889-904 | the push region keeps the order exactly when every earlier record with positive offset is sent, in the batch or in the channel |
| InterleavedOrder.StepKeepsOrderIff | cmd/dmz-collector/main.go:571-619 | a lock region, step of the worker with any outcome of its checkpoint write, or crash keeps it exactly when it is not a push out of order or a restart that cannot scan the log |
| InterleavedOrder.RunIsInOrderIff | cmd/dmz-collector/main.go:571-619 | an interleaving is in order in every state exactly when each of its steps is guarded so |
| InterleavedOrder.NothingIsPassed | cmd/dmz-collector/main.go:571-619 | over every interleaving whose pushes come in order, with any crashes, failed passes and failed checkpoint writes, what the checkpoint has passed has been sent |
| InterleavedLoss.PushPassesIff | cmd/dmz-collector/main.go:889-904 | from a state in order, a push can be followed by steps of its own thread and of the worker alone that bring the checkpoint past an unsent record exactly when it comes out of order |
| InterleavedOrder.ResumeRaceLosesAnEvent | cmd/dmz-collector/main.go:460-469 | a concrete schedule, one ingest at a time and without a crash: an event taken in between the new setting and its refill is sent and checkpointed ahead of a paused record, which no refill finds afterwards |
| InterleavedQueue.PushKeepsDistinctIff | cmd/dmz-collector/main.go:889-904 | the push region queues no ID twice exactly when the ID is not held already |
| InterleavedQueue.StepKeepsExactIff | cmd/dmz-collector/main.go:874-930 | a step keeps batch and channel free of repeats and in-flight set exact, up to threads about to enter it, exactly when no thread looks in vain while another of its ID is in transit and no batch is forgotten before its threads have entered it |
| InterleavedQueue.RunIsExactIff | cmd/dmz-collector/main.go:874-930 | the queue is exact in every state of an interleaving exactly when each of its steps is guarded so |
| InterleavedQueue.NothingIsQueuedTwice | cmd/dmz-collector/main.go:874-930 | over every such interleaving no ID is held twice, and in-flight set and entering IDs are, without overlap, the IDs held |
| Uninterrupted.IngestIs | cmd/dmz-collector/main.go:165-202 | the lock regions of an ingest that nothing interrupts are the ingest step, whatever its appends do |
| Uninterrupted.RefillIs | cmd/dmz-collector/main.go:874-904 | those of a refill over the whole spool are the refill step |
| Uninterrupted.RestartIs | cmd/dmz-collector/main.go:937-956 | a crash, the start after it and its refill are the crash step |
| Uninterrupted.PopIs | internal/buffer/queue.go:47-78 | taking a batch is so many receives |
| Uninterrupted.PassIs | cmd/dmz-collector/main.go:595-630 | a pass over a batch in its order of sending, whole or in part, is the send step |
| Uninterrupted.MarkIs | cmd/dmz-collector/main.go:906-922 | the checkpoint written is the same, whichever way the maximum is found |
| Uninterrupted.ForgetIs | cmd/dmz-collector/main.go:924-930 | letting go of a batch is the same |
| Catalog.SourceState.Observe | internal/sourcecatalog/catalog.go:182-243 | the field updates of one sighting |
| Catalog.Catalog.EnsureState | internal/sourcecatalog/catalog.go:433-458 | finds the record of a key or adds a fresh one, and touches no other |
| Catalog.Catalog.ObserveEvent | internal/sourcecatalog/catalog.go:167-244 | counts an event under its key once per ID, changing that record only; `SourceKeys` says whose record that is, `SourceRecords` what it then says |
| Catalog.Catalog.MergeConfigured | internal/sourcecatalog/catalog.go:406-431 | merges one configured source into the record of its key |
| Catalog.Catalog.MergeConfiguredSources | internal/sourcecatalog/catalog.go:158-165 | the loop merges the sources in their order |
| Catalog.KeyCarriesType | internal/sourcecatalog/catalog.go:485-495 | the canonical type can be read off a key |
| Catalog.SightIsKeyed | internal/sourcecatalog/catalog.go:167-181 | an event's type and group are those its key names |
| Catalog.EntryIsKeyed | internal/sourcecatalog/catalog.go:406-431 | so are a configured source's |
| SourceKeys.EventsMeetByAddress | internal/sourcecatalog/catalog.go:485-495 | two events with addresses share a record exactly when canonical types and trimmed addresses agree, whatever their IDs |
| SourceKeys.EventsMeetById | internal/sourcecatalog/catalog.go:485-495 | without addresses they do exactly when types and trimmed IDs agree |
| SourceKeys.EventsMeetWithoutAddress | internal/sourcecatalog/catalog.go:485-495 | with neither, when the types agree; an event with an address meets one without exactly when the ID of that one is the address |
| SourceKeys.EventMeetsSourceIff | internal/sourcecatalog/catalog.go:406-431 | an event shares the record of a configured source with an address exactly when type and address agree, its ID standing in for a missing address |
| SourceKeys.SourcesMeetByAddress | internal/sourcecatalog/catalog.go:406-431 | two configured sources with addresses share a record exactly when types and addresses agree |
| SourceKeys.EventIsCountedThere | internal/sourcecatalog/catalog.go:167-244 | after any history in which a source was configured, an event with its type and address is counted in its record, once per ID, and in no other |
| SourceKeys.MergeSets | internal/sourcecatalog/catalog.go:406-431 | what a merge sets: fields of the configured source that are not blank replace the record's, the others leave them |
| SourceKeys.SightingNames | internal/sourcecatalog/catalog.go:182-243 | an observation renames no configured source and gives no second ID; another source is named after the event |
| SourceRecords.RecordsTellOfEvents | internal/sourcecatalog/catalog.go:167-244 | after any events, no ID twice, there is a record for a type and place exactly if an event came from there, and its counters, times, fields, names and documents are those of these events |
| CatalogKeys.RecordsMatchTheirKeys | internal/sourcecatalog/catalog.go:433-458 | after any history of observations and merges every record carries its own key and the type and group that key names |
| CatalogKeys.SightFits | internal/sourcecatalog/catalog.go:167-181 | events as the catalog reads them meet the condition of that theorem |
| CatalogKeys.ItemFits | internal/sourcecatalog/catalog.go:406-431 | configured sources meet it too |
| CatalogLog.CatalogIsItsLog | internal/sourcecatalog/catalog.go:167-244 | after any history each record holds exactly the tallies, the last 50 events, and the first and last times of the events accepted under its key, whatever was merged in between |
| CatalogLog.RecordTotals | internal/sourcecatalog/catalog.go:167-244 | events = sum by severity = sum by category, at least the sum by message; the recent list has min(50, events) entries; discovered exactly when events > 0 |
| CatalogLog.AllEventsAreCounted | internal/sourcecatalog/catalog.go:167-181 | over all sources the events counted are the known IDs plus the observations without an ID |
| CatalogLog.CountersIgnoreOrder | internal/sourcecatalog/catalog.go:246-250 | two histories that accept the same events agree on every counter of every source, in whatever order and with whatever merges |
| MergeLaws.MergeActsByKey | internal/sourcecatalog/catalog.go:406-431 | a merge acts on each source through the entries with its key alone, one after another, and on nothing else of the catalog |
| CatalogLog.MergeIsNotLogged | internal/sourcecatalog/catalog.go:158-165 | a merge changes no count, recent list or time of any source |
| MergeLaws.MergeIsIdempotent | internal/sourcecatalog/catalog.go:158-165 | merging the same list again changes nothing, even when several entries share a key |
| MergeLaws.EntriesAreConsistent | internal/sourcecatalog/catalog.go:485-495 | configured sources with one key agree on type and group, as idempotence asks |
| MergeLaws.EnabledIsTheLastSetting | internal/sourcecatalog/catalog.go:237-241 | whatever is observed, a configured source is enabled as last configured, and an unconfigured one is enabled |
| CatalogViews.TakeSnapshot | internal/sourcecatalog/catalog.go:252-304 | the loop over the map, in some order, lists the included records and counts every one |
| CatalogViews.Summarize | internal/sourcecatalog/catalog.go:306-375 | the loop over the map, in some order, adds the included records up |
| CatalogViews.SummaryIgnoresOrder | internal/sourcecatalog/catalog.go:306-375 | a summary does not depend on the order of the map |
| CatalogViews.SummaryRefinesSnapshot | internal/sourcecatalog/catalog.go:252-375 | whatever orders the two loops take, all shared counters agree, and the summary's breakdowns are those of the listed records |
| CatalogViews.SummaryAddsUp | internal/sourcecatalog/catalog.go:306-375 | every breakdown adds up to the same total, groups add up to the visible sources, and visible plus hidden is every record |
| CatalogViews.CatalogAddsUp | internal/sourcecatalog/catalog.go:306-375 | so it is for the catalog after any history; when disabled sources are shown nothing is hidden and the total is the number of events accepted |
| CatalogViews.MoreOptionsShowMore | internal/sourcecatalog/catalog.go:506-533 | enabling more options never removes a source, and showing disabled sources shows all |
| Listing.SnapshotLists | internal/sourcecatalog/catalog.go:252-304 | a snapshot lists exactly the records that its options ask for, and each of its counters is the number of records it is about |
| Listing.SnapshotHasIff | internal/sourcecatalog/catalog.go:506-533 | a record is in it exactly when all are asked for, or it is direct, internal or neither and its own option or its being enabled lets it in |
| Listing.SummaryTells | internal/sourcecatalog/catalog.go:306-375 | each breakdown and each group of a summary holds the sums over the listed records with that name |
| Replay.BootAcceptsTheLog | cmd/dmz-collector/main.go:970-977 | a new process counts every record of the log exactly once, or nothing when a line is too long to scan |
| Replay.RunKeepsReplay | cmd/dmz-collector/main.go:165-202 | in every run whose restarts can scan the log, what the live catalog has counted is the log, read back up to the last start and live since, less the records whose spool append failed |
| Replay.LiveIsReplayIff | cmd/dmz-collector/main.go:165-202 | in every such run the live counters of a source equal those of a rebuilt catalog exactly when the log scans and no record of the source was missed or blank since the last start, or it does not scan and the source has no events; the rebuilt catalog counts the missed records besides |
| Replay.LongLineEmptiesTheCatalog | internal/storage/jsonl.go:162-189 | one event with a line too long: counted live, not rebuilt |
| Replay.BlankIsRecounted | internal/event/model.go:130-138 | one event with a blank severity: counted as empty live, as info when rebuilt |
| TopList.TopMessages | internal/sourcecatalog/catalog.go:562-588 | the loop returns the first entries of the ranking by count, then name |
| TopList.TopIsUnique | internal/sourcecatalog/catalog.go:562-588 | that list does not depend on the order of the map |
| TopList.TopBeatsTheRest | internal/sourcecatalog/catalog.go:562-588 | no omitted message ranks ahead of an included one |
| TopList.TopIs | internal/sourcecatalog/catalog.go:562-588 | as many entries as asked for or all, with the counts of their names, larger counts first and equal ones by name, and none left out that ranks ahead |
| TopList.TopOne | internal/stats/stats.go:179-189 | the loop over the map is the scan of some order of its keys |
| TopList.TopOneIsMaximalIff | internal/stats/stats.go:179-189 | the result is a maximum in every order exactly when an empty key does not hold the strict maximum among others |
| TopList.TopOneWithoutEmptyName | internal/stats/stats.go:179-189 | without an empty key it is a maximum in every order |
| Stats.Stats.Add | internal/stats/stats.go:53-93 | one event updates all totals together |
| Stats.CountersAreTallies | internal/stats/stats.go:53-93 | after any history every counter is the tally of its field over the events added |
| Stats.EveryBreakdownAddsUp | internal/stats/stats.go:53-93 | every breakdown, the timeline and the per-source counts add up to the number of events; the security count is the count of that category |
| Stats.SampleIsNamed | internal/stats/stats.go:53-65 | no event is counted under an empty type or sourcetype |
| Stats.TopListsAreRight | internal/stats/stats.go:95-109 | hence after any events the top source and top sourcetype are maxima in every map order |
| Stats.RateIsThePreviousRun | internal/stats/stats.go:135-143 | the rate reported is the number of events in the last earlier run of equal seconds |
| Figures.EventsAreCounted | internal/stats/stats.go:53-93 | after any events each figure is the number of events with that type, severity, category, sourcetype, asset or minute |
| Figures.SourcesAreListed | internal/stats/stats.go:73-87 | a source is listed once it sent something, with the number of its events and what the last one says of it |
| Figures.LatestIsGreatest | internal/stats/stats.go:88-92 | the latest time is the greatest reception time as texts compare |
| Redaction.RedactValue | internal/ingest/jumphost_events.go:535-561 | the recursion with its loops over maps and arrays is the redaction of the tree, for each redactor's rules |
| Redaction.RedactedDoesNotLeak | internal/ingest/jumphost_events.go:535-580 | no sensitive key at any depth is bound to anything but the marker, and no secret text is left |
| Redaction.RedactionFixesIff | internal/ingest/opcua_dmz_events.go:406-459 | redaction leaves a tree alone exactly when it leaks nothing |
| Redaction.RedactionIsAProjection | internal/ingest/jumphost_events.go:535-561 | redacting twice is redacting once |
| Redaction.CompactMap | internal/ingest/gds_events.go:1385-1405 | the loop drops the empty entries |
| Redaction.CompactionFixesIff | internal/ingest/gds_events.go:1385-1405 | compaction leaves a tree alone exactly when it has no empty entry it looks at |
| Redaction.CompactionIsAProjection | internal/ingest/gds_events.go:1385-1405 | compacting twice is compacting once |
| Redaction.CompactionDoesNotLeak | internal/ingest/gds_events.go:1385-1405 | compaction uncovers nothing that was redacted |
| Redaction.MarkersAreNotSecrets | internal/ingest/gds_events.go:1175-1223 | no redactor takes its own marker for a secret |
| Redaction.RedactorsDoNotLeak | internal/ingest/opcua_dmz_events.go:406-467 | all of the above for the jumphost, OPC UA DMZ, OPC UA facade and display rules as they are |
| RedactionRules.JumphostHidesIff | internal/ingest/jumphost_events.go:535-580 | the keys the jump host's redactor hides, but for case, white space around them and separators |
| RedactionRules.GatewayHidesIff | internal/ingest/opcua_dmz_events.go:406-467 | the keys the gateway's redactor hides: twelve words anywhere, four keys besides, and four exceptions |
| RedactionRules.FacadeHidesIff | internal/ingest/gds_events.go:1175-1223 | the twelve keys the certificate service's redactor hides |
| RedactionRules.JumphostHidesFacades | internal/ingest/gds_events.go:1175-1223 | all of these but two the jump host's redactor hides too |
| RedactionRules.DisplayHidesIff | internal/sourcecatalog/catalog.go:640-648 | the keys the display hides: nine words anywhere; the other two are never decisive |
| RedactionRules.TextsHiddenIff | internal/sourcecatalog/catalog.go:650-658 | the texts each of the four redactors hides |
| RedactionRules.ArraysAreEntered | internal/ingest/jumphost_events.go:535-561 | the three redactors of incoming events go into arrays and the objects in them |
| RedactionRules.DisplayShows | internal/sourcecatalog/catalog.go:608-638 | the display shows the document of an event, but never its raw text, and of its tags those it does not hide |
| RedactionRules.CompactionKeepsIff | internal/ingest/gds_events.go:1385-1405 | compaction keeps exactly the fields with something in them, and only objects change |
| Stream.StreamHub.Subscribe | internal/api/stream.go:19-27 | takes the subscribe step of the hub: a fresh ID, an empty buffer of its own, no other client touched |
| Stream.StreamHub.Unsubscribe | internal/api/stream.go:29-37 | takes the unsubscribe step: the client's channel is closed and keeps what it holds |
| Stream.StreamHub.Publish | internal/api/stream.go:39-48 | takes the publish step: the event is offered to every open client, a full one misses it, and none is closed |
| Stream.ClientsAreIndependent | internal/api/stream.go:19-48 | in every run what a client has depends on its own subscription and receipts and on what is published, not on other clients |
| Stream.ClientsReceiveInOrder | internal/api/stream.go:19-48 | received and buffered events are a subsequence of those published while subscribed, at most 128 are buffered, and one is missing exactly when the buffer was full at a publish |
| Retry.WaitsGrowWithinBounds | internal/forwarder/retry.go:5-14 | up to attempt 214748 waits lie between 200 ms and 30 s and never decrease, in 64-bit arithmetic |
| Retry.WaitIsSoundIff | internal/forwarder/retry.go:5-14 | attempt 214749 is the first whose wait overflows and turns negative |
| Retry.WaitsAreBoundedIff | cmd/dmz-collector/main.go:600-616 | over any sequence of passes all waits stay in bounds exactly when no failure streak exceeds 214748 |

## Left out

- Collector.Collector.Take: does not make the call to the Splunk forwarder that follows the announcement.
- Collector.Collector.IngestOne: takes the time from its caller, and the error texts of the two appends are constants.
- Watermark.ConfigureKeepsSafeIff: takes the change of the setting and its refill as one step; what can come in between
  is `InterleavedOrder.ResumeRaceLosesAnEvent`.
- Interleaving.EveryInterleaving: speaks of IDs; events, configuration and the size of a batch are left to the schedule.
- Uninterrupted.PassIs: takes the batch in its order of sending, since the model of the lock regions does not sort.
- Priority.PassesSendUrgentFirst: leaves out events whose senders set `high_value` themselves; of these
  `Priority.TaggedComeFirst` says that those tagged true come first.
- SourceRecords.RecordsTellOfEvents: is about observations alone; what merges add is `SourceKeys.MergeSets`,
  `SourceKeys.SightingNames` and `MergeLaws.EnabledIsTheLastSetting`.
- Watermark.NothingIsLost: holds of runs that strand nothing and not of all runs; `Watermark.StepKeepsSafeIff` says which
  steps break it, `Capacity` gives conditions that exclude them, and `Overtaking.NothingIsPassed` is what holds beyond.
- Content.OnlySpooledEventsAreSent: does not cover `TestForwarding`, which sends an event of its own through the same
  forwarder without spooling or queueing it (cmd/dmz-collector/main.go:471-493).
- Liveness.TurnsDeliverEverything: speaks of turns in a row whose checkpoints are written; events taken in meanwhile are not
  part of it, and nothing is claimed for a receiver that never accepts.
- Reading.LiveIsReplayOfTheLog: takes events as the normaliser prepares them, so it leaves out the OT pull, which shows events
  to the catalog before validating them (cmd/dmz-collector/main.go:668-669), and runs with a restart that cannot scan the log.
- CatalogViews.TakeSnapshot: the final sort of the listed sources and their top messages are not part of it, nor is `Detail`.
- Redaction.CompactMap: like the code, it does not look inside arrays.
- Stats.Stats.Add: the minute of an event and the current second are parameters; `Timeline` and `Sources` only list what is counted.
- Normalizer.EnrichDMZ: works on a value, so the sharing of one tag map between an event and its copies is not captured; the
  same holds of `EnsureDefaults` and `ValidateAndNormalize`.
- Text: letters and blanks are ASCII; Unicode case and white space are not modelled.
- `OriginalRaw`, which the event log embeds as raw JSON, is taken to be empty.
- Torn writes, the text of a line and the size of a file beyond its line lengths.
- Splunk forwarding: the worker forwards over syslog only and the HTTP event collector is tried once per event
  (cmd/dmz-collector/main.go:1010-1046), although README.md:282 expects the queue to hold its events while Splunk is down.
- `redactMap` of the GDS adapter, which does not look inside nested arrays (internal/ingest/gds_events.go:1144-1173).
- The message classifiers, syslog parsing, HTTP handlers, authentication, web interface, OT pull and event stream,
  self telemetry, Vault and configuration loading: tables and plumbing without deep invariants.
