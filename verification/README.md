# dynamic-config-k8s, modelled and proved

dynamic-config-k8s fetches a configuration document from a store and delivers it to pods as a
file. This project models the parts of it that decide rather than transport, in Dafny, and
proves what they promise over every input and every run:

- **Leadership** (`LeaderLease`): replicas of the operator, and those of the webhook that rotate
  its certificates, contend over one Lease object each with wall-clock expiry, whole-second
  truncation, a version fence and a stand-down timer.
- **The webhook's own certificate authority** (`SelfRotation`): the Secret and then the
  `caBundle` are written while replicas lag behind, on a jittered schedule.
- **The patch compiler** (`Contract`, `JsonPatch`, `PodPatch`, `InjectedAgents`, `Collisions`,
  `VolumeNames`, `Readmission`): which pods are patched; a request becomes a JSON patch (RFC 6901
  and RFC 6902), and interpreting that patch makes the declared pod, with agents whose command
  lines and mounts are what was asked; a second admission of it does nothing.
- **The installation** (`Grammar`, `StoreDefaults`, `Pins`): a document is printed in a grammar
  and parsed back, and tiers of defaults with pins resolve against a pod's annotations.
- **The agent's command line** (`AgentFlags`, `Contract`, `FlagRoundTrip`): the webhook writes
  it and the agent reads it.
- **The sidecar's loop and its slot** (`Sidecar`, `Slot`): what is served, what is held back for
  the canary, what is on disk, and a one-document channel that keeps the latest.
- **The node plugin** (`SharedRegistry`, `NodePlugin`, `SharedDelivery`): pods on a node share
  watches that write their files, publishing and unpublishing may be repeated, and what reaches a
  pod depends on how the one that started its watch renders.
- **Arithmetic and codecs** (`Calendar`, `Base64`, `Properties`, `Histogram`): the civil date of
  a second count, base64 both ways, `.properties` files, and a histogram read while it is written.

`Text` is the little of a standard library that the rest needs, `Wrappers` the two result shapes.
Code that updates state in place is a class or a method with loops, proved against a function of
the old state; protocols are state machines over interleaved steps; what the source calls and
this project cannot see (a store, a format library, a template, a certificate) is a parameter.

## What turned out to be false

Nine statements that read as promises do not hold of the code. Each has a run or an input that
shows it, and the exact condition under which the code does keep it.

| statement | shown by | holds exactly when |
|---|---|---|
| two replicas never lead at once | `LeaderLease.Together` | four claims, three wake-ups and the loop's entry take under a second (`ExclusionExactly`) |
| an unpublished target has no file | `NodePlugin.FileLeftBehind` | it has none now, and its directory is gone or no running watch is its own or owes it a document (`FileExactly`, `FileAtRestExactly`) |
| a joined target has a running watch while it reads | `NodePlugin.JoinedUnheard` | the watch's first render and write succeeded (`HeardExactly`) |
| a joined pod is shown every document it can render | `SharedDelivery.OvertakenStays`, `SharedDelivery.Missed`, `SharedDelivery.MissedBehind` | what was served when it claimed looks to it like what it had fetched, the starter's rendering decides its own, and the starter's writes work; or its rendering never changes (`JoinedShownExactly`, `JoinedToFailingExactly`, `AnyJoinExactly`) |
| the newest document is served once the cohort is open | `Sidecar.NewestNotServed`, `Sidecar.HeldIsDropped` | no delivery overtakes a held document, and no failed write drops one (`AlwaysCurrentExactly`) |
| a pod that passes the name check keeps its names unique | `Collisions.NamesNotKept` | no container is called as a named render's agent (`NamesUniqueExactly`) |
| it keeps its volume names unique | `VolumeNames.VolumesNotKept` | no volume of its own is called as an added one (`VolumesUniqueExactly`) |
| a pinned `agent-run-as-user` is the agent's UID | `Pins.PinnedUserNotKept` | the pod does not inherit its application's UID, or inherits that one (`UserPinnedExactly`) |
| a scrape prints a well-formed histogram | `Histogram.TornScrape` | the buckets are read before the count (`ScrapeOrder`), as the agent's are; the webhook's print is well formed when in no bucket the late observations outnumber the missing ones (`CountFirstExactly`) |

Others in the same spirit are stated where they arise: a rotation cancelled between its writes
(`SelfRotation.CancelledHalfway`) and its late write (`SelfRotation.LateWriteExactly`), a leaf that
expires before it is replaced (`SelfRotation.LeafOutlivesExactly`), an empty pass-through value that
makes its flag swallow the next word (`FlagRoundTrip.ReadsBackExactly`), a publish that fails halfway
(`Sidecar.FailedPublishTearsExactly`), two outputs with one path (`Sidecar.WholeSetOnDiskExactly`),
and a missing file that the next render does not write although the comment at
dynamic-config-agent/src/sidecar.rs:883 says it will (`Sidecar.MissingFileWrittenExactly`).

## What the models assume

- `LeaderLease`: one clock, read without skew, in microseconds; a claim is over within `claim`, a
  sleep ends at most `wake` late, and a replica that won is in its renewing loop within `ready`:
  for the operator the first poll of the future that `lead` returns
  (dynamic-config-operator/src/main.rs), for the webhook the reading of the Secret and the start
  of the renewing task. A write may reach the server after its sender gave up, a replica may die
  and come back under its name, and a leader leads until its loop has answered.
- `SelfRotation`: one replica rotates at a time, which is `LeaderLease.ExclusionExactly` for the
  webhook's lease. A write of a rotation that was given up may arrive later. Certificates are
  generation numbers with lifetimes.
- `NodePlugin`: a document that changes the starter's set is given to its readers of that moment;
  a write can fail, and fails where the directory is gone. The kubelet removes the directory of a
  target only while it is not published and has no call in flight. A watch ends by itself on its
  first render or write only: the attributes of a volume turn on no drift or deletion policy, no
  canary and no trust material.
- `SharedDelivery`: the writes of the pod that joined work; how each pod renders is a parameter. A
  pod that joins before the watch's first publish is given that document by it, and counts as
  joining then.
- `PodPatch`: the pod is one the API server would send: `metadata` and `spec` are objects, lists
  are lists where they are present; a wrapped container has a command, which `Readmission` derives
  from the contract's own check and unique container names.
- `Readmission`: how an installation turns annotations into a request is a parameter, so the
  result holds for every installation.
- `Pins`: checks on single annotations that do not take part in resolution are not there, so the
  model accepts every pod the webhook accepts and some it would refuse; what is proved of all the
  accepted holds of the webhook's.
- `FlagRoundTrip`: the environment carries at most an address, a token and a password. Which
  extensions name a format and which addresses may be notified are parameters.

## Model

| member | source | states |
|---|---|---|
| `LeaderLease.ExclusionExactly` | dynamic-config-operator/src/election.rs:54-191 | over every run of any number of replicas with one clock, under either lease, no two lead at once exactly when `4 * claim + 3 * wake + ready` is under a second (`claim` bounds one claim, `wake` how late a sleep ends, `ready` the way from a won claim into the renewing loop) |
| `LeaderLease.TakeoverWaits` | dynamic-config-operator/src/election.rs:154-167 | a record is taken from a holder only after a whole second past its duration has gone by since its renewTime, because seconds are truncated and the comparison is strict |
| `LeaderLease.StandsDown` | dynamic-config-operator/src/election.rs:71-109 | a leader stops within the longest lead of the renewTime of its own latest record |
| `LeaderLease.DisplacedLeaderStops` | dynamic-config-operator/src/election.rs:71-109 | a leader that is not the current holder leads on for at most `4 * claim + 3 * wake + ready` less one second after the write that displaced it |
| `LeaderLease.NeverTogether` | dynamic-config-operator/src/election.rs:54-191 | under that bound, no reachable state has two leaders |
| `LeaderLease.Together` | dynamic-config-operator/src/election.rs:54-191 | beyond it, a run that ends with two replicas leading |
| `LeaderLease.RecordHistory` | dynamic-config-operator/src/election.rs:113-191 | in every run of the operator's lease `leaseTransitions` is the number of holder changes since creation, and `acquireTime` moves exactly when the holder does |
| `LeaderLease.TransitionsCount` | dynamic-config-operator/src/election.rs:172-177 | the count, from the order of the stored records alone |
| `LeaderLease.StepOk` | dynamic-config-operator/src/election.rs:113-191 | every step (clock, read, decide, fenced write, answer, failure, entry, end, death, restart, a write that arrives late) keeps the invariant |
| `LeaderLease.LeaseObject.Write` | dynamic-config-operator/src/election.rs:179-190 | a create or replace is accepted exactly when the resource version has not moved, and then adds one record |
| `LeaderLease.LeaseObject.Claim` | dynamic-config-webhook/src/selfrotate.rs:211-270 | a claim holds the lease exactly when the record it read lets it and nobody wrote meanwhile, and otherwise stores nothing; a refused replace is an error to the webhook alone |
| `LeaderLease.Renewals` | dynamic-config-operator/src/election.rs:71-109 | the renewing loop computes the specified state after any sequence of answers |
| `LeaderLease.FailingLeaderStops` | dynamic-config-webhook/src/selfrotate.rs:153-192 | a leader none of whose renewals succeeds stops leading, not before the term and within three rounds |
| `LeaderLease.GoesOnLeading` | dynamic-config-operator/src/election.rs:71-109 | a leader that goes on was never told that another holds the lease, and one whose renewals all succeed goes on |
| `LeaderLease.ExpiredExactly` | dynamic-config-operator/src/election.rs:154-163 | a record has expired exactly when it has no renewTime or is a whole second more than its duration old, fifteen seconds or thirty where it names none |
| `LeaderLease.StopsExactly` | dynamic-config-operator/src/election.rs:54-109 | a step stops a replica exactly when it dies, or, under the operator's lease, its work ends, its own claim fails before it led, it is told that another took what it led, or fifteen seconds pass without a renewal that worked |
| `LeaderLease.StoppedBy` | dynamic-config-operator/src/election.rs:54-109 | over every run, a replica that has stopped was stopped by such a step, and never for finding the lease taken |
| `LeaderLease.WaitsExactly` | dynamic-config-webhook/src/selfrotate.rs:107-124 | a replica that finds the lease taken waits five seconds under the operator's lease and fifteen under the webhook's, and so does the webhook's after a rotation, a failure or a loss |
| `LeaderLease.ClaimsWithin` | dynamic-config-operator/src/election.rs:61-84 | in every reachable state a waiting replica may claim within five (fifteen) seconds, and a leader asleep renews five (ten) seconds after it fell asleep, or `wake` later |
| `LeaderLease.ComesBack` | dynamic-config-operator/src/election.rs:61-84 | a replica may die at any time and claim at once when it comes back; one that won a claim leads, counting its term from entering its loop and from each renewal |
| `LeaderLease.LateWritesArrive` | dynamic-config-operator/src/election.rs:179-190 | what a replica sent before it gave up, finished or died may still arrive |
| `LeaderLease.StraggleLands` | dynamic-config-operator/src/election.rs:179-190 | and is stored exactly when nothing has been since it was read |
| `LeaderLease.TakesFree` | dynamic-config-operator/src/election.rs:113-191 | in any state a replica whose wait is over takes a lease that is absent or expired by its own five steps, and leads |
| `LeaderLease.Failover` | dynamic-config-operator/src/election.rs:54-191 | from every reachable state whose lease is free, or will be when its wait is over, a waiting replica leads five (fifteen) seconds and one claim later at most, though everybody else dies |
| `Calendar.CivilDateCounts` | dynamic-config-agent/src/events.rs:189-222 | for every day number the formula names the date that counting day by day from 1970-01-01 reaches |
| `Calendar.TomorrowIsNext` | dynamic-config-agent/src/events.rs:189-222 | one day more is the calendar's next date, across month ends, leap days and centuries, and every date is valid |
| `Calendar.EpochDate` | dynamic-config-agent/src/events.rs:189-222 | day 0 is 1970-01-01 |
| `Calendar.DatesDiffer` | dynamic-config-agent/src/events.rs:189-222 | different days have different dates |
| `Calendar.StampReadsBack` | dynamic-config-agent/src/events.rs:189-222 | to the end of year 9999 every field of a stamp stands at its place and reads back as the date that counting days reaches and the time of that day |
| `Calendar.YearReads` | dynamic-config-agent/src/events.rs:189-222 | a year reads back, in four digits up to 9999 and unpadded from then on |
| `Calendar.StampsSort` | dynamic-config-agent/src/events.rs:189-222 | up to the end of year 9999 stamps sort as text exactly as their instants do |
| `Calendar.StampsStopSorting` | dynamic-config-agent/src/events.rs:189-222 | and past it they do not: a five-digit year sorts before a four-digit one |
| `Base64.RoundTrip` | dynamic-config-agent/src/render.rs:426-476 | decoding undoes encoding for every byte sequence although the 32-bit accumulator drops bits, and the text is four characters to every three bytes |
| `Base64.EncodersAgree` | dynamic-config-webhook/src/patch.rs:1470-1498 | the webhook's encoder writes what the agent's does, on every input |
| `Base64.Refuses` | dynamic-config-agent/src/render.rs:450-476 | the decoder refuses exactly a character outside the alphabet, the padding and the line breaks, wherever it stands |
| `Base64.AgentBase64` | dynamic-config-agent/src/render.rs:426-447 | the agent's nested loops compute the specified encoding |
| `Base64.WebhookBase64` | dynamic-config-webhook/src/patch.rs:1470-1498 | the webhook's loop computes its own |
| `Base64.Unbase64` | dynamic-config-agent/src/render.rs:450-476 | the decoding loop, accumulator wrap included, computes the specified decoding |
| `Histogram.ScrapeOrder` | dynamic-config-agent/src/metrics.rs:230-311 | under every interleaving of any number of observations, printed buckets never fall and never pass `+Inf` exactly when the buckets are read before the count |
| `Histogram.TornScrape` | dynamic-config-webhook/src/main.rs:190-210 | the webhook reads its count first, and this run prints a bucket over `+Inf` |
| `Histogram.CountFirstExactly` | dynamic-config-webhook/src/main.rs:190-210 | with the count read first, the print is well formed exactly when for every bucket no more observations reached it between the count and its own read than had counted themselves without reaching it |
| `Histogram.SettledExact` | dynamic-config-agent/src/metrics.rs:230-241 | with no observation in flight each bucket is the number of observations at or under its ceiling, and the count and sum are exact |
| `Histogram.Metrics.Reconciled` | dynamic-config-agent/src/metrics.rs:230-241 | one observation moves the count, the sum and exactly the buckets at or over it |
| `Histogram.Metrics.Scraped` | dynamic-config-agent/src/metrics.rs:279-311 | with nobody recording, the running maximum changes nothing and the print is the counters |
| `Slot.LatestWins` | dynamic-config-agent/src/sources.rs:55-96 | over every interleaving, what is received is a strictly later-moving selection of what was sent, each the newest at the moment it was taken |
| `Slot.LastArrives` | dynamic-config-agent/src/sources.rs:77-90 | once sending stops one more receive gives the last document if it was not the one already taken, and otherwise there is nothing |
| `Slot.Channel.Put` | dynamic-config-agent/src/sources.rs:61-75 | a send replaces what is in the slot |
| `Slot.Channel.Recv` | dynamic-config-agent/src/sources.rs:77-90 | a receive takes the newest, sends between its waking and its reading included |
| `SharedRegistry.WatchesMatchReaders` | dynamic-config-node-agent/src/shared.rs:87-203 | after any run of claims and releases the watched documents are those somebody reads, each by one live watch, and every other watch ever started was told to stop exactly once |
| `SharedRegistry.RunRefines` | dynamic-config-node-agent/src/shared.rs:87-203 | the map refines the plain relation of documents and targets, over all runs |
| `SharedRegistry.ClaimRefines` | dynamic-config-node-agent/src/shared.rs:105-143 | a claim adds one pair and answers `Started` exactly when the document had no reader |
| `SharedRegistry.ReleaseRefines` | dynamic-config-node-agent/src/shared.rs:159-191 | a release removes the target's pairs and nobody else's, and stops a watch exactly when its last reader leaves |
| `SharedRegistry.Registry.Claim` | dynamic-config-node-agent/src/shared.rs:105-143 | the method computes the specified claim |
| `SharedRegistry.Registry.Readers` | dynamic-config-node-agent/src/shared.rs:145-151 | the readers of a document, each once |
| `SharedRegistry.Registry.Release` | dynamic-config-node-agent/src/shared.rs:159-191 | the two nested loops, over the documents and over each one's readers, compute the specified release, every stop sent once |
| `SharedRegistry.SweepReleases` | dynamic-config-node-agent/src/shared.rs:163-188 | visiting the documents in any order, each once, makes the same release |
| `SharedRegistry.Registry.Counts` | dynamic-config-node-agent/src/shared.rs:193-203 | the counts are the documents and the pairs of the relation |
| `NodePlugin.Settled` | dynamic-config-node-agent/src/csi.rs:125-287 | over all interleavings of calls, watches and the kubelet, a target with no call in flight is published exactly when it reads a document, reads at most one, and has its file while it is published; the registry has an entry for a document exactly while somebody reads it |
| `NodePlugin.FileLeftBehind` | dynamic-config-node-agent/src/csi.rs:184-262 | the claim that an unpublished target has no file fails: its own watch, kept for another reader, writes it again |
| `NodePlugin.FileExactly` | dynamic-config-node-agent/src/csi.rs:184-262 | an unpublished target can have a file, however the rest of the node goes on, exactly when it has one or its directory is there and a running watch is its own or owes it a document in hand |
| `NodePlugin.FileAtRestExactly` | dynamic-config-node-agent/src/csi.rs:184-262 | and with the watches at rest, exactly when it has one or its directory is there and it started a watch another target still reads |
| `NodePlugin.HeardExactly` | dynamic-config-node-agent/src/csi.rs:184-235 | the first reader of a document starts its watch, and while it is read, whoever comes and goes, its watch keeps running exactly when its first render and write succeed; nothing starts another |
| `NodePlugin.JoinedUnheard` | dynamic-config-node-agent/src/csi.rs:184-235 | the claim that a joined target has a running watch while it reads fails: the starter's first render or write failed, and no watch runs for the document while anybody reads it |
| `NodePlugin.OvertakenJoin` | dynamic-config-node-agent/src/csi.rs:160-190 | a target writes its file before it claims, and a document the watch takes in between is not owed to it, then or once it has joined |
| `SharedDelivery.JoinedShownExactly` | dynamic-config-agent/src/sidecar.rs:656-713 | from any join (the document the watch was serving at the claim, the one the pod had fetched) and while the starter's writes work, a pod is shown every document it can render in every run exactly when what was being served looks to it like what it fetched and either the starter can render all the pod can and what the starter renders alike is alike for the pod, or the pod's rendering never changes: the loop tells the others only of what changes its starter's files |
| `SharedDelivery.JoinedToFailingExactly` | dynamic-config-agent/src/sidecar.rs:656-713 | when the starter's writes can fail, as they do once it is gone with its directory, exactly when the pod's rendering never changes: a return to the last set the starter got is no change |
| `SharedDelivery.Missed` | dynamic-config-agent/src/sidecar.rs:656-699 | a document that the starter cannot render, or that looks to it like what is served, is not shown to the pod |
| `SharedDelivery.MissedBehind` | dynamic-config-agent/src/sidecar.rs:656-699 | a document that only the starter can render hides the next one it renders alike |
| `SharedDelivery.CaughtUpExactly` | dynamic-config-agent/src/sidecar.rs:656-713 | where the starter's rendering decides the pod's, a run leaves the pod up to date exactly when its join was in step, or the starter has since seen a change and the pod a document from then on, or nothing the pod can render has arrived |
| `SharedDelivery.ToldRegardless` | dynamic-config-agent/src/sidecar.rs:691-713 | a document that changes what is served is shown to the others whether or not the starter's own write works |
| `SharedDelivery.OvertakenStays` | dynamic-config-node-agent/src/csi.rs:160-190 | the pod fetches one document, the watch takes the next, and only then the pod claims: however often the store repeats the next, with both pods rendering alike and every write working, the pod stays on the old one |
| `SharedDelivery.AnyJoinExactly` | dynamic-config-node-agent/src/csi.rs:160-190 | over every join there can be, a pod is always shown everything exactly when its rendering never changes |
| `NodePlugin.RetriesAreNoOps` | dynamic-config-node-agent/src/csi.rs:125-287 | publishing again changes nothing, and unpublishing a target that is not published runs to its end and changes nothing but that a file left behind goes |
| `NodePlugin.FanOut` | dynamic-config-node-agent/src/csi.rs:334-367 | every due reader gets its own rendering, one that cannot be rendered or written stops nobody else, and no other file changes |
| `NodePlugin.DeliveryOwes` | dynamic-config-node-agent/src/csi.rs:334-367 | a document the watch takes is owed to every reader of that moment and to the starter, each once; the first one to the others only once the starter has it |
| `NodePlugin.WritesLand` | dynamic-config-node-agent/src/csi.rs:334-367 | a write that works puts the file there and is owed no more, one that fails leaves the files and is owed no more |
| `NodePlugin.StopsWhenTold` | dynamic-config-node-agent/src/csi.rs:190-200 | a watch can end exactly when the registry no longer has it and it has written what it owes |
| `SelfRotation.Window` | dynamic-config-webhook/src/selfrotate.rs:298-396 | over any number of uninterrupted rotations with every replica catching up between them: outside the two writes every leaf verifies, between them exactly the replicas that already loaded the new pair do not, and the bundle is the current CA and at most the one before |
| `SelfRotation.CancelledHalfway` | dynamic-config-webhook/src/selfrotate.rs:343-381 | a rotation given up leaves the Secret's pair trusted exactly when the Secret was not yet written; after that every replica that catches up stops verifying |
| `SelfRotation.RotatedAfterCancel` | dynamic-config-webhook/src/selfrotate.rs:298-396 | what the next rotation then repairs and for whom, whichever replicas had caught up before it or since |
| `SelfRotation.LateWriteExactly` | dynamic-config-webhook/src/selfrotate.rs:153-381 | a write whose rotation was given up and which arrives after any number of whole ones, or inside the next, leaves the replicas that then catch up verifying exactly when a write still to come replaces it, or it is the `caBundle` and no rotation has begun since |
| `SelfRotation.NextRotationHeals` | dynamic-config-webhook/src/selfrotate.rs:298-381 | whatever a rotation left, every replica verifies after the next whole one |
| `SelfRotation.CallIsRun` | dynamic-config-webhook/src/selfrotate.rs:298-396 | a call that is given up after any number of writes is a run of the protocol with those writes |
| `SelfRotation.Cluster.Rotate` | dynamic-config-webhook/src/selfrotate.rs:298-396 | the two writes in order, given up after any number of them |
| `SelfRotation.Cluster.Attend` | dynamic-config-webhook/src/selfrotate.rs:118-208 | only the leader rotates, and only when the pair is due; what the two stores hold after a rotation cut short anywhere |
| `SelfRotation.RotationWindow` | dynamic-config-webhook/src/selfrotate.rs:118-137 | whatever jitter is drawn, a rotation starts under 1.1 thirds of the validity and no later than the first poll under three tenths |
| `SelfRotation.LeafOutlivesExactly` | dynamic-config-webhook/src/selfrotate.rs:118-137 | the replaced leaf outlives its replacement under every schedule exactly when three tenths of the validity cover the skew, a poll gap, the stamping and the call |
| `SelfRotation.LateSchedule` | dynamic-config-webhook/src/selfrotate.rs:118-137 | otherwise a schedule that lets it expire |
| `SelfRotation.FreshStampWaits` | dynamic-config-webhook/src/selfrotate.rs:325-381 | a freshly stamped Secret is not rotated again before six tenths of its validity have gone |
| `SelfRotation.BundleText` | dynamic-config-webhook/src/selfrotate.rs:298-420 | however many certificates `ca.crt` holds, the bundle beside one new CA holds at most two |
| `SelfRotation.FirstIsOne` | dynamic-config-webhook/src/selfrotate.rs:406-420 | the first certificate of a text is one certificate, or the empty text where none ends |
| `Properties.PropertiesReadBack` | dynamic-config-agent/src/render.rs:158-167 | when no key holds a dot, a separator or a backslash, reading the file back, each line split at its first unescaped separator and refused when its value holds another, gives exactly the leaves of the document, in order and with their own text; a document is refused exactly when it holds an array |
| `Properties.LeavesExactly` | dynamic-config-agent/src/render.rs:286-310 | the leaves are exactly what lies in the document that is not a table, at its path |
| `Properties.LeavesCount` | dynamic-config-agent/src/render.rs:286-310 | each of them once |
| `Properties.ArrayFreeExactly` | dynamic-config-agent/src/render.rs:286-310 | a document is refused exactly when an array lies somewhere in it |
| `Properties.ScalarTextIs` | dynamic-config-agent/src/render.rs:311-320 | the text of each kind of scalar |
| `Properties.SplitBareExactly` | dynamic-config-agent/src/render.rs:311-320 | a line splits exactly where it holds a bare separator |
| `Properties.StepsAreEscape` | dynamic-config-agent/src/render.rs:311-320 | the four replacements in sequence are one pass over the text |
| `Properties.UnescapeUndoes` | dynamic-config-agent/src/render.rs:311-320 | and an unescape undoes them |
| `Properties.EscapeSeals` | dynamic-config-agent/src/render.rs:311-320 | no text escapes to one with a newline or a bare separator |
| `Properties.ScalarReadsBack` | dynamic-config-agent/src/render.rs:311-320 | a printed scalar reads back as its text, and holds no newline and no unescaped `=` or `:` |
| `Properties.Walker.Walk` | dynamic-config-agent/src/render.rs:286-310 | the walk with one pushed and popped path gives the leaves the other walk gives, and stops exactly at an array |
| `Properties.FlatProperties` | dynamic-config-agent/src/render.rs:158-207 | the flattening computes the specified file or the refusal |
| `Sidecar.OneGeneration` | dynamic-config-agent/src/sidecar.rs:140-165 | in every run without failed writes, outside writers or emptying, after each step the files are exactly what is served |
| `Sidecar.ServedIsWhole` | dynamic-config-agent/src/sidecar.rs:657-718 | what is served or held back is always the whole set of one document that arrived, whatever writes fail and whoever else writes |
| `Sidecar.WritesOnlyChanges` | dynamic-config-agent/src/sidecar.rs:664-673 | in those runs a delivery writes exactly when it changes the files |
| `Sidecar.HeldOutside` | dynamic-config-agent/src/sidecar.rs:559-692 | while the pod is outside the cohort it serves its first set, and every file written since is a repair of it or, after a deletion under `remove`, empty |
| `Sidecar.NewestNotServed` | dynamic-config-agent/src/sidecar.rs:455-477 | the claim that the newest document is served once the cohort opens fails: a document goes back to what is served while a change is held, and the held change is published |
| `Sidecar.HeldIsDropped` | dynamic-config-agent/src/sidecar.rs:455-477 | the claim fails another way: the held set is taken before it is written, the write fails once, and no tick ever writes it again |
| `Sidecar.CurrentIsServed` | dynamic-config-agent/src/sidecar.rs:455-477 | what opening the cohort leaves served is the newest exactly when it was current |
| `Sidecar.CurrentExactly` | dynamic-config-agent/src/sidecar.rs:455-718 | whatever writes fail, the newest document stays what opening the cohort would leave served through a step exactly when the step neither overtakes a held document nor drops one (a write that fails with nothing left holding the document) |
| `Sidecar.AlwaysCurrentExactly` | dynamic-config-agent/src/sidecar.rs:455-718 | and throughout a run exactly when no step in it does either |
| `Sidecar.OvertakenIsServed` | dynamic-config-agent/src/sidecar.rs:455-477 | and once it is overtaken, widening the cohort puts the older document back over the newest |
| `Sidecar.DroppedForGood` | dynamic-config-agent/src/sidecar.rs:455-477 | a document that was dropped is not served by anything but another delivery |
| `Sidecar.FailedPublishTearsExactly` | dynamic-config-agent/src/sidecar.rs:709-716 | a publish that fails still serves the old set, and leaves that one whole on disk exactly when no file it had written changed, and the new one exactly when no other file did |
| `Sidecar.WholeSetOnDiskExactly` | dynamic-config-agent/src/sidecar.rs:740-762 | a publish that succeeds leaves its set on disk exactly when no two of its files share a path and differ |
| `Sidecar.RepairRestores` | dynamic-config-agent/src/sidecar.rs:479-526 | a drift check under `repair` restores the set from any disk |
| `Sidecar.RenderAllExactly` | dynamic-config-agent/src/render.rs:497-551 | a set exists exactly when the document is under the ceiling and every output renders, and is then each output's text in order |
| `Sidecar.SetIsOutputs` | dynamic-config-agent/src/render.rs:497-551 | a set is the main output and then each extra one, under their own paths |
| `Sidecar.Render` | dynamic-config-agent/src/render.rs:497-551 | the loop computes that set or nothing |
| `Sidecar.CachedStartExactly` | dynamic-config-agent/src/sidecar.rs:866-890 | after a start from the files on disk they are what is served exactly when none is missing |
| `Sidecar.MissingFileWrittenExactly` | dynamic-config-agent/src/sidecar.rs:873-890 | the next delivery writes a missing file exactly when some part differs from what was read; the source's comment says it always does, and an empty part is the exception |
| `Sidecar.Recover` | dynamic-config-agent/src/sidecar.rs:936-1002 | what each startup policy serves when the first fetch fails, when it gives up, a refused write of an empty file included, and the disk it leaves |
| `Sidecar.Agent.WriteFiles` | dynamic-config-agent/src/sidecar.rs:740-762 | the files are written in order up to the first failure |
| `Sidecar.Agent.Deliver` | dynamic-config-agent/src/sidecar.rs:657-718 | a delivery moves the loop's variables and the disk as the step specification says |
| `Sidecar.Agent.Canary` | dynamic-config-agent/src/sidecar.rs:455-477 | so does a canary tick |
| `Sidecar.Agent.Drift` | dynamic-config-agent/src/sidecar.rs:479-526 | so does a drift check, under each policy |
| `Sidecar.Agent.Drifted` | dynamic-config-agent/src/sidecar.rs:898-907 | the first file that is not as it was written, if there is one |
| `Sidecar.Agent.Unchanged` | dynamic-config-agent/src/sidecar.rs:916-929 | whether the fresh set is the one served, file by file |
| `Sidecar.Agent.Gone` | dynamic-config-agent/src/sidecar.rs:559-612 | so does a deletion, under each policy |
| `Sidecar.EndedExactly` | dynamic-config-agent/src/sidecar.rs:505-606 | over every run, the agent has ended exactly when a deletion under `fail` was in it, or a drift check under `fail` of a disk that is not what is served |
| `Sidecar.NothingMoves` | dynamic-config-agent/src/sidecar.rs:455-612 | an ended agent, a deletion under `retain`, a drift check under `warn` or of files as served, a canary tick with nothing held or outside the cohort, and a document that cannot be rendered or is served already change nothing |
| `Sidecar.GoesOn` | dynamic-config-agent/src/sidecar.rs:559-718 | after any deletions under `retain` and drift checks under `warn`, the next document that differs is served and on disk if the pod is in the cohort, and otherwise held with the files as they were |
| `Sidecar.RemoveEmpties` | dynamic-config-agent/src/sidecar.rs:585-602 | a deletion under `remove` leaves exactly the pod's files empty that can be written, and changes neither what is served nor what is held |
| `Sidecar.AdmittedCount` | dynamic-config-agent/src/canary.rs:77-85 | of the hundred buckets a percentage admits as many as it says, and a wider one those too |
| `Grammar.PrintParsesExactly` | dynamic-config-webhook/src/annotations.rs:397-436 | parsing what `lists` prints gives the groups back exactly when every namespace is one and every group holds at least one valid, trimmed, delimiter-free name |
| `Grammar.GateIsDocument` | dynamic-config-webhook/src/annotations.rs:473-482 | the gate a clean document's list becomes allows what the document grants and nothing else |
| `Grammar.AllowsExactly` | dynamic-config-webhook/src/annotations.rs:473-482 | `allows` is direct matching: the name itself, or a prefix before a star, under the namespace or every namespace |
| `Grammar.PartsReadBackExactly` | dynamic-config-webhook/src/annotations.rs:400-424 | pieces joined and split come back exactly when they are trimmed, non-empty and delimiter-free |
| `Grammar.GatesReadBackExactly` | dynamic-config-webhook/src/annotations.rs:440-471 | the printed variable and source gates parse back exactly for groups of plain, accepted names |
| `Grammar.Lists` | dynamic-config-webhook/src/installation_file.rs:228-253 | the printer's loops compute the specified text, and refuse exactly a value that is not a map of lists of scalars |
| `Grammar.ScalarTextExactly` | dynamic-config-webhook/src/installation_file.rs:228-253 | the text of a scalar of a document says which it was, numbers reading back from their digits |
| `Grammar.HeadExactly` | dynamic-config-webhook/src/annotations.rs:402-412 | a group without a colon is for every namespace |
| `Grammar.EnvNameExactly` | dynamic-config-webhook/src/annotations.rs:440-456 | a variable's name begins with a capital or an underscore, goes on with those and digits, and may end in one star |
| `Grammar.SourceNameExactly` | dynamic-config-webhook/src/annotations.rs:460-466 | a gate may name the nine stores |
| `Grammar.ScopedNames` | dynamic-config-webhook/src/annotations.rs:397-436 | the parser's loops compute the specified groups or the refusal |
| `StoreDefaults.StoresReadBackExactly` | dynamic-config-webhook/src/annotations.rs:930-971 | parsing printed stores gives them back exactly when each is known, named once, and its knobs and values are trimmed, delimiter-free and accepted |
| `StoreDefaults.DocumentReadsBack` | dynamic-config-webhook/src/installation_file.rs:181-225 | a document's stores come back as it meant them, maps pair by pair and strings as the grammar reads them, refusals included |
| `StoreDefaults.PerStore` | dynamic-config-webhook/src/installation_file.rs:181-225 | the printer's loops compute the specified text, and refuse exactly the other shapes |
| `StoreDefaults.ReadStores` | dynamic-config-webhook/src/annotations.rs:930-971 | the parser's loops compute the specified stores or the refusal, a repeated store included |
| `Pins.KnobsResolve` | dynamic-config-webhook/src/annotations.rs:1655-1771 | every knob of an accepted pod: a pinned one has the pinned value, another what its annotation says, and a silent pod the store's, the fleet's or the built-in |
| `Pins.AcceptedExactly` | dynamic-config-webhook/src/annotations.rs:1590-1860 | a pod is accepted exactly when its source is known and the fleet's where that is pinned, neither pair contradicts or sidesteps a pin or is said twice, every knob is readable and the pinned value where there is one, the application's UID can be taken if it is asked for, and somebody says an address, a key and a path |
| `Pins.KnobsAnswered` | dynamic-config-webhook/src/annotations.rs:1655-2287 | each knob by name of an accepted pod or named render is what the annotation says, else what the store's tier gives, else the fleet's, else the built-in; with the agent's UID and metrics port |
| `Pins.PairsResolve` | dynamic-config-webhook/src/annotations.rs:1690-1812 | both pairs, of the default and of every named render: what the pod says of the halves if it says either, else for each half what the tiers give, pinned or not |
| `Pins.NamedAcceptedExactly` | dynamic-config-webhook/src/annotations.rs:2900-3064 | a named render is accepted exactly when it names a known store and a path, its pairs and knobs are accepted against that store, and an address and a key are said |
| `Pins.KnobReadsExactly` | dynamic-config-webhook/src/annotations.rs:674-824 | the words a tier takes for a mode, a medium, a switch, an interval, a port and an ID, and what each means |
| `Pins.TextReadsExactly` | dynamic-config-webhook/src/annotations.rs:674-824 | and for quantities, paths and permissions |
| `Pins.StringReadsExactly` | dynamic-config-webhook/src/annotations.rs:674-824 | a store-shaped string is any text but the empty one, and a secret's has a slash |
| `Pins.StoreExactly` | dynamic-config-webhook/src/annotations.rs:1091-1099 | a store's tier is the first under its name |
| `Pins.PairsPinned` | dynamic-config-webhook/src/annotations.rs:1704-1725 | a pinned half of the endpoint or the template pair is the answer and its other half is none |
| `Pins.SourcePinned` | dynamic-config-webhook/src/annotations.rs:1666-1676 | a pinned source is the source of the default render |
| `Pins.SuppliedPins` | dynamic-config-webhook/src/annotations.rs:1114-1139 | the flag computed is the closest word: the value's marker, the supplying tier's flag, the installation's |
| `Pins.UserPinnedExactly` | dynamic-config-webhook/src/annotations.rs:2139-2217 | a pinned UID is the agent's exactly when the pod does not take the application's, or the application's is that one |
| `Pins.PinnedUserNotKept` | dynamic-config-webhook/src/annotations.rs:2154-2217 | the claim that a pinned UID always holds fails for a pod that inherits its application's |
| `Pins.PortPinned` | dynamic-config-webhook/src/annotations.rs:2265-2287 | a pinned port is the port, but for a pinned zero restated, which turns it off |
| `Pins.RestatingIsNeutral` | dynamic-config-webhook/src/annotations.rs:1646-1694 | an annotation that repeats the installation's own string changes nothing in the resolution |
| `Pins.NamedRendersPinned` | dynamic-config-webhook/src/annotations.rs:2918-3026 | a named render's pins are those of the store it names, the pairs included |
| `Pins.SetTwice` | dynamic-config-webhook/src/annotations.rs:667-686 | a knob set twice takes its value from the last and its pin from the first that carried a marker |
| `Pins.KnobDefaults.Set` | dynamic-config-webhook/src/annotations.rs:674-824 | one knob set in a tier, or refused as the matching annotation would be |
| `Pins.SuppliedStrings` | dynamic-config-webhook/src/annotations.rs:1144-1178 | the gathered list answers for each key what the tiers supply |
| `Pins.ResolvePod` | dynamic-config-webhook/src/annotations.rs:1655-1771 | the checks and loops over the gathered settings compute the specified request or the refusal |
| `Pins.ResolvePair` | dynamic-config-webhook/src/annotations.rs:1704-1725 | one pair, from the gathered settings |
| `Pins.ResolveSource` | dynamic-config-webhook/src/annotations.rs:1655-1676 | the source the other knobs depend on |
| `AgentFlags.FlagNamed` | dynamic-config-agent/src/spec.rs:572-708 | every flag is known by its own name and by no other word |
| `AgentFlags.ReadWords` | dynamic-config-agent/src/spec.rs:570-708 | the loop over the arguments computes the specified options or the refusal |
| `AgentFlags.ParseRendering` | dynamic-config-agent/src/spec.rs:294-341 | the loop over the fields of `--also` computes the specified rendering or the refusal |
| `AgentFlags.AuthExactly` | dynamic-config-agent/src/spec.rs:838-1000 | a store is reached exactly in one of the listed ways with the token, password or flag that way needs; a user of etcd needs a password and a key of nats a slash |
| `AgentFlags.RefusedExactly` | dynamic-config-agent/src/spec.rs:773-836 | what is refused though it could be read: half a TLS pair, a flag of another store, two templates, a file without a known extension, a way that cannot work |
| `AgentFlags.StartsExactly` | dynamic-config-agent/src/spec.rs:570-836 | the agent starts exactly when its words are read, it has a store, an address, a key and a file, every extra rendering can be read, and nothing is refused |
| `AgentFlags.LastWins` | dynamic-config-agent/src/spec.rs:570-708 | one flag more: a value replaces the one before, a rendering is added, a switch is thrown, `--one-shot` takes the watch back, and a flag without its value is refused |
| `AgentFlags.UnknownRefused` | dynamic-config-agent/src/spec.rs:700-708 | a word that is no flag's name is refused wherever a flag is expected |
| `AgentFlags.NumbersReadExactly` | dynamic-config-agent/src/spec.rs:572-708 | which texts the flags with numbers take, and their bounds |
| `AgentFlags.WordsReadExactly` | dynamic-config-agent/src/spec.rs:572-708 | which words the three policies take; an address to notify is one that may be reached, any other flag takes any text |
| `AgentFlags.FieldReadsExactly` | dynamic-config-agent/src/spec.rs:300-341 | which fields an extra rendering has |
| `Contract.Write` | dynamic-config-webhook/src/patch.rs:899-1015 | the words pushed entry by entry, an empty pass-through value not written |
| `FlagRoundTrip.ReadsBackExactly` | dynamic-config-webhook/src/patch.rs:917-927 | the command line reads back as it was meant exactly when no pass-through value is empty; an empty one makes its flag swallow the next word |
| `FlagRoundTrip.RequestReadsBack` | dynamic-config-agent/src/spec.rs:570-708 | the flag loop accepts the webhook's command line exactly when each value is one its flag takes, and then with no flag unknown and no value swallowed |
| `FlagRoundTrip.ViewRecovered` | dynamic-config-agent/src/spec.rs:773-1000 | the agent's last check sees the request the webhook was asked for, its own defaults and the pod's environment, and nothing else |
| `FlagRoundTrip.StoreRecovered` | dynamic-config-webhook/src/patch.rs:900-934 | source, address, key, file, interval and `--dynamic` are read as asked, an interval of zero as one |
| `FlagRoundTrip.SwitchesRecovered` | dynamic-config-webhook/src/patch.rs:936-1001 | the watching agent's switches are read exactly as asked, and the one that runs once has none |
| `FlagRoundTrip.SettingsRecovered` | dynamic-config-webhook/src/patch.rs:970-1015 | the watching agent's addresses, policy and numbers are read as asked, the numbers back from their digits |
| `FlagRoundTrip.PassThroughRecovered` | dynamic-config-webhook/src/patch.rs:917-927 | each pass-through flag reaches the agent with its own value |
| `FlagRoundTrip.NotPassedAbsent` | dynamic-config-webhook/src/patch.rs:917-927 | and one that is not passed through is not there |
| `FlagRoundTrip.RenderingsRecovered` | dynamic-config-agent/src/spec.rs:570-1000 | the agent starts exactly when each value is one its flag takes, there is an address, and its last check accepts the request; every extra rendering is then there in order, with its path, its section and the main render's permissions |
| `FlagRoundTrip.CutReadsBackExactly` | dynamic-config-agent/src/spec.rs:300-341 | an extra rendering reads back exactly when its fields hold no comma and its extension names a format |
| `FlagRoundTrip.AcceptedModeRecovered` | dynamic-config-webhook/src/annotations.rs:505-523 | permissions the webhook accepts are written so that the agent reads the same number |
| `FlagRoundTrip.FileModeRecovered` | dynamic-config-agent/src/spec.rs:671-690 | octal digits behind a zero read back as the mode |
| `FlagRoundTrip.ExtraIsRequest` | dynamic-config-webhook/src/patch.rs:1222-1250 | a named render's command line is that of a request asking for nothing else, so it reads back likewise |
| `JsonPatch.PointerReadsBack` | dynamic-config-webhook/src/patch.rs:573-581 | a pointer with `~1` for a slash in a key is read as its tokens, for all tokens |
| `JsonPatch.OnFieldExactly` | dynamic-config-webhook/src/patch.rs:554-560 | what `add`, `replace` and `remove` do to one member of an object, and when they are refused |
| `JsonPatch.OnItemExactly` | dynamic-config-webhook/src/patch.rs:554-560 | and to one item of an array: an `add` makes room, a `remove` there undoes it, and the position has to be there |
| `JsonPatch.RunUnderField` | dynamic-config-webhook/src/patch.rs:554-560 | operations under a field act on that field's value and on nothing else |
| `JsonPatch.RunEach` | dynamic-config-webhook/src/patch.rs:773-790 | operations for each item of an array run item by item without disturbing each other |
| `PodPatch.PatchInjects` | dynamic-config-webhook/src/patch.rs:539-1465 | interpreting the patch in order never fails and makes exactly the injected pod, for every request and well-formed pod |
| `PodPatch.MountsNameVolumes` | dynamic-config-webhook/src/patch.rs:567-795 | every mount added, in the pod's containers and in every agent, names a volume added |
| `InjectedAgents.AgentsStay` | dynamic-config-webhook/src/patch.rs:899-1120 | in every injected pod whose mode says so there is a container `dynamic-config-agent`, and one for each named render, whose arguments the agent reads as watching for what was asked, and whose mounts lead read-only to each piece of material asked for and to the rendered files; a native one restarts always |
| `InjectedAgents.AgentsEnd` | dynamic-config-webhook/src/patch.rs:899-1120 | and an init container `dynamic-config-init`, and one for each named render, read as rendering once and ending, with none of the switches a watch has |
| `InjectedAgents.InitsCount` | dynamic-config-webhook/src/patch.rs:1396-1465 | the init containers are the pod's own, the agents that run once and the native sidecars |
| `InjectedAgents.OwnInitAt` | dynamic-config-webhook/src/patch.rs:1396-1465 | the pod's own stay together and in order, behind the agent where that goes first |
| `InjectedAgents.OnceAt` | dynamic-config-webhook/src/patch.rs:1396-1465 | the agent that runs once is first of all if the pod asks for that, and else right after the pod's own; those of named renders follow |
| `InjectedAgents.NativeAt` | dynamic-config-webhook/src/patch.rs:1396-1465 | native sidecars come last |
| `InjectedAgents.SidecarsInOrder` | dynamic-config-webhook/src/patch.rs:1396-1465 | other sidecars follow the pod's containers |
| `InjectedAgents.OwnContainer` | dynamic-config-webhook/src/patch.rs:747-895 | each container of the pod: the rendered files where the pod wants them if it is chosen, and the wrapped one's command behind a script that sources the very file the agent writes, with a probe that compares it |
| `InjectedAgents.PullSecretAdded` | dynamic-config-webhook/src/patch.rs:797-816 | the webhook's pull secret is added to the pod's own |
| `PodPatch.NothingElseChanges` | dynamic-config-webhook/src/patch.rs:539-1465 | outside spec and annotations nothing changes, and of the annotations only the mark |
| `PodPatch.SpecElsewhere` | dynamic-config-webhook/src/patch.rs:539-1465 | of the spec only four fields can change; volumes are appended, the sidecars follow the pod's containers |
| `PodPatch.ContainerKept` | dynamic-config-webhook/src/patch.rs:747-895 | each container keeps its place and all fields but four; a selected one has one mount more, and the wrapped one runs the wrapper, its command and its arguments |
| `PodPatch.PatchesFor` | dynamic-config-webhook/src/patch.rs:539-1465 | the operations pushed step by step, with their whole paths, are the specified patch |
| `Collisions.NamesUniqueExactly` | dynamic-config-webhook/src/patch.rs:475-530 | for a pod that passes the check, names stay unique exactly when no container of its own is called as a named render's agent |
| `Collisions.NamesNotKept` | dynamic-config-webhook/src/patch.rs:505-515 | the claim that passing the check keeps names unique fails for a render `db` and a container `dynamic-config-agent-db` |
| `Collisions.RefusedForNothing` | dynamic-config-webhook/src/patch.rs:505-515 | and a pod is refused for `dynamic-config-agent-1`, a name nothing takes |
| `Collisions.NamesAfter` | dynamic-config-webhook/src/patch.rs:1396-1465 | the names after the injection are the pod's and the added ones, each as often |
| `Collisions.WrappedIsWrappable` | dynamic-config-webhook/src/annotations.rs:2657-2706 | with unique names, every container the patch wraps has a command to replace and no probe to lose |
| `Collisions.FindCollision` | dynamic-config-webhook/src/patch.rs:475-530 | the loops find the first name taken, if there is one |
| `Collisions.WantedExactly` | dynamic-config-webhook/src/patch.rs:480-510 | the names looked for are those of the agents the mode adds, bare and numbered up to the renders |
| `Collisions.EnvAcceptedExactly` | dynamic-config-webhook/src/annotations.rs:2657-2706 | the check on a wrapped container looks at the first of that name, which must have a command, and no liveness probe if it is to restart |
| `VolumeNames.VolumesUniqueExactly` | dynamic-config-webhook/src/patch.rs:475-745 | a pod's volume names stay unique exactly when none of its own is one the injection takes; the check looks at containers only |
| `VolumeNames.VolumesNotKept` | dynamic-config-webhook/src/patch.rs:475-530 | the claim that a pod which passes the check has distinct volumes after the injection fails for a volume `dynamic-config` |
| `VolumeNames.VolumesTake` | dynamic-config-webhook/src/patch.rs:567-745 | the volumes of the patch have exactly the listed names, in order |
| `VolumeNames.TakesOnce` | dynamic-config-webhook/src/patch.rs:567-745 | and no two of them are the same, whatever the named renders are called |
| `Readmission.ReadmissionIsNoOp` | dynamic-config-webhook/src/patch.rs:82-281 | for a pod the API server would send, with unique container names, the answered patch applies, and admitting the result again, under any installation, classes and namespace, is allowed with no patch |
| `Readmission.PatchedExactly` | dynamic-config-webhook/src/patch.rs:82-281 | a pod is patched exactly when it is unmarked, says `inject` is `true`, its class, if it names one, is known here, admits the namespace and keeps its credential here, the contract accepts what it says over what the class says, the gates permit that, and none of its containers has a name that is looked for; and the patch then makes exactly the injected pod |
| `Readmission.AllowedExactly` | dynamic-config-webhook/src/annotations.rs:1574-1583 | an unmarked pod is allowed as it is exactly when it says nothing of `inject`, or `false`, and its class, if it names one, may be used; anything else is refused |
| `Readmission.MarksDecide` | dynamic-config-webhook/src/annotations.rs:1545-1572 | a pod without annotations is allowed, one with another's mark refused, and one with this webhook's allowed exactly when it has a container of one of the agent's two names |
| `Readmission.SeenExactly` | dynamic-config-webhook/src/patch.rs:372-393 | the contract is given the same pod, but for the annotations its class adds under the pod's own |
| `Readmission.MarkedExactly` | dynamic-config-webhook/src/annotations.rs:1545-1572 | a marked pod is never patched: allowed exactly when it carries the agent, refused otherwise, whatever else anybody changed in it |
| `Readmission.ClassOnlyFills` | dynamic-config-webhook/src/patch.rs:372-393 | a class is a default: whatever the pod says stays, and only its store, address and token can be added |
| `Readmission.SamePatch` | dynamic-config-webhook/src/patch.rs:94-112 | what a class fills in does not show in the patch, so it fits the pod that was sent |
| `Text.NumeralReadsBack` | dynamic-config-agent/src/spec.rs:590-690 | a number printed in decimal or octal reads back, for every number the type holds |

## Left out

- Store clients, HTTP, gRPC, TLS serving, tracing and process start-up: plumbing over libraries that are not part of this model.
- The engine's pace and its jitter, document parsing, templates, schemas, digests and certificate minting: parameters or opaque values.
- The pause before a reopened watch, lease renewal of a dynamic secret, and trust reloads in the sidecar's loop: they do not touch the files.
- Relaxed memory ordering: atomic counters and mutex sections are single interleaved steps.
- `leaseTransitions` as a 32-bit number, 64-bit counters that wrap: numbers are unbounded there, as no run reaches the edge in a cluster's life.
- Deletion of the Lease or its editing by somebody who is not a replica.
- A restart of the node plugin, and publish and unpublish of one target at once, which the kubelet serialises.
- INI output as a round trip: its scalar form replaces a quotation mark, so it cannot be undone; environment entries are easier relatives of the `.properties` lines.
- Carriage returns and Unicode normalisation in text; shifts and masks in `Base64` are written as division and remainder.
- Image, resources, security context, environment, ports and probes of the injected containers: one map each that the patch carries and does not read.
- The directory of a path: `Path::parent` is a field of the request.
- Refusal wording, warnings, the source gates and the `agent-env` gate beyond `allows`: one branch each.
- The order in which two refusals are tried: an error is one value.
- File permissions in the sidecar's set: they come from the command line and never change in a run.
- The hash that puts a pod in a cohort: its number is a field.
- The metrics, meta file, history and notification that follow a write.
- The operator's reconciling, and how classes are polled.
