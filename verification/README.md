# cicache: model and proofs

cicache is a caching proxy for CI jobs. Within a job it keeps responses on local disk; between jobs it
keeps them at the Actions cache service, an append-only store of immutable entries that is rate
limited. Small objects travel together in one pack entry, large ones as entries of their own, and a
manifest entry lists which keys are worth asking for. This project models that in Dafny and proves what
holds over every interleaving, every run and every chain of runs.

`dafny verify dfyconfig.toml` checks everything.

## How the model is laid out

| module | what it holds |
|---|---|
| Base, Ascii, Text, Utf8 | bytes, little-endian and decimal numbers, the string and UTF-8 conversions of the standard library |
| Pack, Entry, Manifest | the three formats: buffers and cursor loops as methods, each proved equal to a specification function about which the lemmas are |
| Gha | the cache service client: a class with the rate-limit latch, and the same store operation cut into its awaited steps |
| Job | one run as a machine of atomic steps: request handlers, upload tasks, the receive and join loops, start-up and teardown interleave at every await |
| Uploads, Teardown, Drain, Traffic, Disk | what every step of that machine keeps |
| World | any number of runs around one service, started and interleaved in any way; entries are immutable: a key is reserved, or an entry lands under it, only while the service has none; lookups may find nothing (eviction, branch visibility) but never something else |
| Session, History, Holdings | one run with truthful lookups among other writers' entries; chains of runs; which listed keys the service holds |
| SecondRun, Repack, Witness | what a run publishes and what chains of runs do, what the run after finds, what becomes of an object put again under a packed key, and three runs spelled out to which the theorems apply |
| Overlap | histories the manifest does not serve, built step by step |
| Store | the store as the class it is in the program, and each operation as a run of the machine nothing interrupts |
| Headers, Policy, Proxy | header maps, the caching policy, and the request path as a class over store and counters |
| Requests, Transparency | any number of requests in any number of runs, each going through the proxy's decisions step by step while all the rest moves; what is kept, and what a hit is |
| Stats, Books | the counters as a class, their additions interleaved, and their relation to the uploader's |
| Curlrc | the lines added to and removed from curl's configuration |

What the program gets from outside is a parameter of the step or method that receives it: replies of the
service, outcomes of disk reads and writes, the origin's answer, the clock in a stamp, the order in
which a set is iterated. JSON, SHA-256 and the parsing of URLs are functions given from outside; a
lemma that needs a law of them assumes it for the very values it speaks about (this header record reads
back, these two byte strings do not collide), never for all values at once.

The second run hits (`SecondRun.SecondRunHits`) when the first run's puts complete before its queue
closes, the upload of the key in question is stored, or declined with an entry there, its saves carry
stamps no earlier save of the scope had, the service goes along with them (the latch is open then, and a
name it has nothing under is granted and confirmed) and its pack fits; when the later run's start-up
lookups give the newest entries, the service answers for what it holds, the disk works and the latch
stays open; and when nobody else files a manifest or a pack under the scope or puts anything else under
the key. Other requests, other keys and other writers are unrestricted. That the saves land is not
assumed: entries are immutable, and it follows from the stamps (`World.SavesAreNamed`).

## Where the program does other than its comments say

- A declined store is taken for "already there" also when the latch is set, when the reservation comes
  back without a place to upload to, and when the finalisation comes back with a no (src/gha.rs:210-249):
  `Gha.DeclinedExactly`. Whether a failed reservation means "already there" is read from the status and
  the text, anything that says 409 will do: `Gha.ExistenceIsReadFromText`.
- So a manifest can advertise what is not at the service, which src/store.rs:282 rules out: with the latch
  open, `Overlap.ListsWhatIsNotThere` is the run, `Holdings.AdvertisedAreHeld` the exact condition. Keys
  that enter the index by the latch are never published (`Teardown.PublishedManifest`).
- Merging the manifest does not keep concurrent jobs from dropping each other's keys
  (src/store.rs:196-197): `Overlap.LostUpdate` is the run, `History.PublishReplaces` says exactly which
  keys go, `History.NeverShrinks` when none do. A failed load is the same case: nothing was loaded.
- The number of packed objects is counted before any is skipped (src/store.rs:165-166):
  `Teardown.PackedIsAnUpperBound`.
- A small object put under a key that came out of the pack is written to disk but does not by itself
  cause a new pack (src/store.rs:262-264): `Repack.RePutComesBack` says exactly when the next run gets the
  new bytes and when the old ones.
- A scope that extends another with a dash takes its entries for its own (src/gha.rs:260-262):
  `Session.ScopesApart` is the exact condition.
- `clear_curlrc` removes every line that starts with the setting, also the user's own, and a file that
  has no other line (src/main.rs:436-441): `Curlrc.ClearUndoesWrite` is the exact condition.
- Cache-Control directives are looked for as words anywhere in the first field line: more is refused
  than RFC 9111 asks for on that line (`Policy.RefusedExactly`), and later lines are not read
  (`Policy.LaterLinesUnread`). A max-age of 2^64 or more is no max-age (`Policy.MaxAgeExact`).
- The summary reads its counters one after the other and can show more hits than requests while
  requests are counted (`Stats.SummariesTear`); it is the counters at one moment when no addition falls
  between its first and its last load (`Stats.QuietReadsAreWhole`), and never shows more outcomes than
  requests counted by then (`Stats.ReadsAreBounded`).

## Model

| member | source | states |
|---|---|---|
| Pack.Encode | src/pack.rs:18-33 | the growing buffer ends as the magic number and the records of the greedy choice |
| Pack.ReadRecord | src/pack.rs:44-62 | one turn of the cursor reads the record there, or finds it short or ill-formed, and moves past exactly that record |
| Pack.Decode | src/pack.rs:37-65 | the cursor loop returns all the records before the first that is short or whose key is not UTF-8; other magic numbers are refused |
| Pack.RoundTrip | src/pack.rs:18-65 | decoding an encoding gives back exactly the kept objects if and only if each key and body length fits its header field |
| Pack.Ceiling | src/pack.rs:17-26 | the output stays within max(4, ceiling); kept and skipped objects partition the input in order; each skipped object would still overflow the final buffer; nothing is skipped exactly when all fits |
| Pack.Truncation | src/pack.rs:35-36 | for any bytes with the magic number, a prefix decodes to exactly the records that lie wholly inside it, a prefix of what the whole decodes to |
| Pack.Canonical | src/pack.rs:37-65 | encoding what was decoded, without a ceiling, reproduces exactly the consumed bytes |
| Manifest.Collect | src/store.rs:207-209 | whatever order the set is iterated in, the list is sorted, free of repetitions and has exactly its members |
| Manifest.ListingUnique | src/store.rs:207-209 | there is only one such list |
| Manifest.Absorb | src/store.rs:184-188 | reading a body adds exactly the keys its non-blank lines are |
| Manifest.ListRoundTrip | src/store.rs:185-210 | the list read is the list written if and only if no key is blank or has a newline and none but the last ends in a carriage return |
| Manifest.KeysRoundTrip | src/store.rs:185-210 | for clean keys the set read is the set written |
| Gha.GhaCache.Rpc | src/gha.rs:109-140 | a 429 closes the latch, nothing opens it, only a parsed success yields a value |
| Gha.GhaCache.Fetch | src/gha.rs:176-205 | with the latch set nothing is asked and nothing found; else one call, and found, absent and broken told apart |
| Gha.GhaCache.Put | src/gha.rs:209-250 | reserve, upload and finalise end as the small steps do: result, latch, number of calls, and whether the entry landed |
| Gha.FoundExactly | src/gha.rs:176-205 | a lookup finds bytes exactly when the service says yes, names a place, and they are there; nothing exactly when it says no or names no place; everything else is a failure |
| Gha.StoreOutcome | src/gha.rs:209-250 | nothing is asked once the latch is set, otherwise one call or two; stored means landed; landing takes both calls; the latch afterwards is set exactly by a 429 among them |
| Gha.DeclinedExactly | src/gha.rs:209-250 | declined if and only if the latch was set, the reservation named no place to upload to, it failed with a message read as an existing entry, or the finalisation was answered with a no; stored if and only if all three steps were confirmed |
| Gha.ExistenceIsReadFromText | src/gha.rs:222-257 | a reservation that failed counts as the entry existing if and only if the status or the text the service sent says 409 or already_exists, whichever way it failed; otherwise it is an error |
| Uploads.InvariantStep | src/store.rs:253-339 | every step keeps: queue order, closing for good, permits, each key sent once, one result a message, the index and the flag exact |
| Uploads.ExactIndex | src/store.rs:276-283 | when the uploader has ended the index is what was loaded plus exactly the keys whose store returned ok; the flag holds if and only if that is more than was loaded; a key whose upload failed is in only if loaded; every message has its result |
| Uploads.FlagLag | src/store.rs:319-329 | at any moment the flag lags only behind a task that is between the insertion and the flag |
| Uploads.OncePerKey | src/store.rs:253-256 | no key is sent twice in a run, and at most max(1, concurrency) uploads are in flight |
| Teardown.PublishedManifest | src/store.rs:198-219 | a manifest that lands lists, sorted, exactly loaded plus taken keys, and every new one had its reservation answered by the service; keys the latch let in never get that far |
| Holdings.AdvertisedAreHeld | src/store.rs:276-284 | when a manifest lands, every stored key is held by the service, and all newly taken keys are if and only if those whose upload was declined are |
| Teardown.LatchOnly | src/gha.rs:127-135 | no step of any kind opens the latch |
| Teardown.PackedIsAnUpperBound | src/store.rs:161-173 | the published count bounds the records written, and is met exactly when all fit |
| Drain.Conservation | src/store.rs:303-339 | after the join, stored, declined and failed add up to the messages sent, and the two counters are the numbers of stored and failed |
| Drain.NeverMoreThanSent | src/stats.rs:126-133 | at any moment the counters are within what was sent |
| Drain.WorkShrinks | src/store.rs:306-339 | every step of the loop or of a task brings the end nearer, whatever the service answers |
| Drain.Progress | src/store.rs:306-339 | once the queue is closed and until the end, some step of the uploader is possible |
| Drain.UploadLoop | src/store.rs:306-339 | the receive loop and the join loop, run by any scheduler of their own steps under any replies, end with empty queue and no task, within the work there was |
| Drain.BoundedInAnyTrace | src/store.rs:306-339 | whatever requests and the teardown do in between, from a closed queue on the uploader takes at most as many steps as there is work |
| Traffic.AfterTheLatch | src/gha.rs:127-135 | from the moment the latch is set uploads make at most two calls for each of max(1, concurrency) permits, each lookup past its check at most one, start-up none, and saves none but one already under way |
| Traffic.AtMostOneLookup | src/store.rs:221-251 | with a working disk and lookups of the key not overlapping, the service is asked for it at most once a run |
| Traffic.OnlyListedKeys | src/store.rs:228-232 | a key that is asked for is in the index |
| Traffic.NoLookupOnceOnDisk | src/store.rs:221-257 | once a key is on disk, by a put, the pack or a fetch, no later lookup asks for it |
| Disk.WhatWasWritten | src/store.rs:104-272 | after any run the disk has under each key what the pack, a put or a fetch last wrote there with success, and nothing else; the packed keys are those unpacked with success and those of small puts |
| World.KindsApart | src/gha.rs:260-262 | object, manifest and pack keys under one prefix are never mistaken for each other |
| World.SavesAreNamed | src/gha.rs:158-174 | a save goes under prefix, kind, scope, second and run number with dashes between, and two saves of a scope have the same name exactly when they are of the same second and run number |
| World.OneEntryPerKey | src/gha.rs:8-10 | in every history no two entries share a key, and what the service has it keeps: a key once taken stands for the same bytes for good |
| World.SoundAlways | src/store.rs:102-283 | in every history of runs, all that is on disk, queued, carried by a task or a request, packed or stored under an object's key was put under that key by some run |
| World.Provenance | src/store.rs:221-251 | the bytes a lookup returns in any run were put under that key by some run |
| World.PutsAreSteps | src/store.rs:253-272 | and that put is a step of the history |
| Session.PlayIsExec | src/store.rs:102-283 | other writers reach into a run only through lookups: its own steps are a run by themselves |
| Session.ScopesApart | src/gha.rs:260-262 | two scopes can read each other's entries if and only if one of scope-dash is a prefix of the other |
| History.Course | src/main.rs:508-550 | the manifest is loaded first, loading happens once, and after teardown began the index no longer changes |
| History.PublishReplaces | src/store.rs:196-219 | a landed manifest becomes the newest and lists loaded plus taken; keys published meanwhile are lost exactly when neither; a key put by this run and stored or declined is listed again |
| History.OneRun | src/store.rs:178-219 | a run alone in its scope leaves a manifest that contains the one it found and can be read back |
| History.NeverShrinks | src/store.rs:178-219 | over any number of such runs the newest manifest never loses a key |
| Overlap.LostUpdate | src/store.rs:196-219 | two runs of one scope that both started before either published, both storing their object and landing their manifest under different stamps: the newest manifest lists only the second one's key, having listed the first one's |
| Overlap.ListsWhatIsNotThere | src/store.rs:280-283 | a run alone with the service, its latch open, after which the newest manifest lists a key under which the service has nothing |
| SecondRun.StoredIsKept | src/store.rs:140-219 | after a well-behaved run a key it put, whose own upload if any was stored or declined with an entry there, is in the newest pack, or listed in the newest manifest and held by the service |
| SecondRun.Publishes | src/store.rs:178-219 | a run whose saves carry new stamps and are gone along with leaves a manifest that lists what it found listed and what the service took from it, and nothing else |
| SecondRun.Accumulates | src/store.rs:178-219 | over any number of such runs the newest manifest lists what was listed at first and everything the service ever took |
| SecondRun.SecondRunHits | src/store.rs:102-283 | each lookup that ends in the next run of the scope for a key the first run put returns exactly the bytes put, small objects through the pack and large ones through manifest and entry, whatever becomes of other keys' uploads and whatever else both runs and other writers do |
| Witness.ThreeRuns | src/store.rs:102-283 | three such runs exist: two that store an object each, from start-up to the end of the flush, the second listing both under a stamp of its own, and one that starts after them and finds the second one's object |
| Repack.PackFlagExact | src/store.rs:257-266 | from unpacking on, under every interleaving, the pack's flag is up only if the packed set grew, and when it grew the flag is up or a put is about to raise it |
| Repack.RePutComesBack | src/store.rs:104-175 | what the next run unpacks under a key that was in the pack is the bytes of its first put if and only if some small object under a key not in the pack was put too, and else the old bytes again |
| Store.Store.LoadIndex | src/store.rs:178-194 | the whole new state: index grown by the listed keys, latch perhaps set, nothing else |
| Store.Store.LoadPack | src/store.rs:104-138 | the unpacking loop leaves on disk and in the packed set exactly the objects whose write succeeded |
| Store.Store.Put | src/store.rs:253-272 | the whole new state of a put; unchanged for a key put before; the pack is flagged only for a key new to it |
| Store.Store.Get | src/store.rs:221-251 | answer, new state and number of calls of a lookup in every case |
| Store.Store.Upload | src/store.rs:314-336 | what one upload task leaves, by the service's answers |
| Store.Store.SaveIndex | src/store.rs:198-219 | nothing unless dirty; otherwise the sorted list of the whole index is stored under the name spelled out for its stamp |
| Store.Store.SavePack | src/store.rs:141-175 | nothing unless dirty; otherwise the readable packed objects in key order, up to the limit, under the name spelled out for its stamp, and the count published |
| Store.PutIsSteps | src/store.rs:253-272 | the uninterrupted put is a run of the machine with the same outcome |
| Store.GetIsSteps | src/store.rs:221-251 | the uninterrupted lookup is a run of the machine with the same answer and outcome |
| Store.GetExactly | src/store.rs:221-251 | a lookup returns bytes if and only if the disk has them readable, or the key is listed, not missing, the latch open and the service finds them; which calls it makes and what it leaves |
| Store.UploadIsSteps | src/store.rs:314-336 | the uninterrupted upload task is a run of the machine with the same outcome and counters |
| Store.SaveIndexIsSteps | src/store.rs:198-219 | the uninterrupted save of the manifest is a run of the machine with the same outcome and the same entry left at the service |
| Store.SavePackIsSteps | src/store.rs:141-175 | so is the pack's, gathering included, with the same count |
| Policy.HostMatchesLabels | src/policy.rs:209-216 | matching by characters is the pattern's labels being a suffix of the host's |
| Policy.SubdomainOrder | src/policy.rs:208-216 | matching is reflexive, antisymmetric and transitive |
| Policy.BypassCoversSubdomains | src/policy.rs:162-169 | everything below a bypassed host is bypassed, for hosts not spelled with a bracket |
| Policy.BypassIsClosed | src/policy.rs:162-169 | among hosts a URL can have, everything below a bypassed one is bypassed, bracketed addresses included |
| Policy.BypassedExactly | src/policy.rs:162-169 | a GET is refused for its host if and only if the host, freed of its brackets, ends in the labels of a built-in or a configured pattern; such a host is never eligible under any method |
| Policy.ParamAnywhere | src/policy.rs:195-198 | a plainly spelled query parameter is seen under its own name wherever it stands |
| Policy.EscapesDoNotHide | src/policy.rs:195-198 | a query parameter is seen under its own name however its bytes are escaped |
| Policy.SignedNeverEligible | src/policy.rs:195-198 | a URL with a signature parameter in any case, plainly spelled or with any of its bytes escaped, at any place is never eligible |
| Policy.FirstReasonDecides | src/policy.rs:100-160 | both decisions name the first of their reasons that applies, each stated on method, labels, header values and literal words alone, and pass exactly when none does |
| Policy.AcceptedExactly | src/policy.rs:125-160 | given its first Cache-Control line, or none, a response is accepted if and only if its status is 200, the line mentions no forbidding word, the size is within the limits, and all is cached, the line mentions immutable, its age is at least the minimum, or the URL is on the list of immutable artifacts by host labels and path mark |
| Policy.DirectivesAreHonoured | src/policy.rs:135-145 | a no-store, no-cache or private directive at any position of the first field line, in any case, with or without argument, keeps a response out |
| Policy.RefusedExactly | src/policy.rs:135-145 | a response is refused as not to be stored if and only if some piece of the first field line mentions one of the three words; without a forbidding directive exactly when no piece is named by one |
| Policy.MentionsAreRefusedToo | src/policy.rs:140-145 | such a line exists: one word inside another |
| Policy.LaterLinesUnread | src/policy.rs:135-139 | further field lines change nothing |
| Policy.MaxAgeExact | src/policy.rs:218-224 | the age is n exactly when the first trimmed piece that starts with max-age= goes on with a decimal, perhaps after a plus, of value n below 2^64 |
| Ascii.ParseU64Exact | src/policy.rs:223 | digit by digit with overflow checks is the same as value and range |
| Policy.KeysAreObjectKeys | src/policy.rs:173-178 | keys have the shape the store's namespaces rely on |
| Policy.KeySpelledOut | src/policy.rs:173-193 | what is hashed, spelled out: GET, a newline, and the URL with its port only where it is not the scheme's own and without its fragment |
| Policy.KeysTellTargetsApart | src/policy.rs:173-193 | two URLs share a key if and only if scheme, site, path and query agree and the ports do once a missing one is read as 443 for https and 80 for http, absent a collision on the two |
| Entry.Encode | src/entry.rs:65-73 | the buffer is magic number, header length, header record and body |
| Entry.BodyIsGuarded | src/entry.rs:77-93 | behind a readable header a body is accepted if and only if it has the recorded digest |
| Entry.RoundTrip | src/entry.rs:40-93 | every entry made from a response reads back with that URL, status, recorded headers, digest of the body, time and body |
| Entry.TruncationIsRejected | src/entry.rs:77-93 | a cut is noticed always in the header, and in the body unless what is left has the same digest |
| Entry.ExtensionIsRejected | src/entry.rs:86-91 | bytes added are noticed unless the longer body has the same digest |
| Entry.ServedBodiesMatch | src/entry.rs:75-93 | whatever the bytes came from, what decodes is a whole entry whose body has its digest |
| Entry.ToHeaderMap | src/entry.rs:95-105 | the loop puts back, in order, each recorded header that can be one |
| Entry.ReplayedValues | src/entry.rs:40-105 | recording and putting back keeps under each name exactly the text values in order, and none of the hop's headers |
| Proxy.Sanitize | src/proxy.rs:379-388 | the loop keeps all but the headers of the hop and the host, in order |
| Proxy.Build | src/proxy.rs:396-411 | status and body as given, length written anew, cache header set |
| Proxy.Replay | src/proxy.rs:390-394 | an entry as the response it is replayed as |
| Proxy.Proxy.Forward | src/proxy.rs:334-362 | store untouched; one passthrough recorded if the origin answers, nothing if not |
| Proxy.Proxy.FetchAndStore | src/proxy.rs:266-331 | new store state, counters, request sent upstream and response, in every case |
| Proxy.Proxy.Handle | src/proxy.rs:236-264 | the same for the decision whether to forward, replay or fetch |
| Proxy.Proxy.Dispatch | src/proxy.rs:123-151 | and for errors, which become one recorded error and a bad gateway |
| Proxy.OutcomeSaysWhatHappened | src/proxy.rs:123-362 | every request is answered; exactly those handled record an outcome, one each; which one, if and only if what happened |
| Proxy.RecordSaysWhy | src/proxy.rs:238-362 | with the outcome go the bytes of the body given (as declared when streamed), the origin's time, and the reason a response was passed or not stored; only an eligible request's lookup asks the cache service |
| Proxy.ReasonsDiffer | src/policy.rs:81-95 | no two reasons read alike, so the record tells which one it was |
| Proxy.MissAnswers | src/proxy.rs:286-331 | an eligible request without a usable entry is answered with the origin's status, its whole body (streamed above the ceiling) and under each name its values less hop and host, with the miss mark and, for a whole body, the length written anew; only an unreadable body gives a bad gateway |
| Proxy.PassAnswers | src/proxy.rs:334-362 | an ineligible one with the origin's status, its body streamed, and its values under each name less hop and host, with the pass mark |
| Proxy.FailureAnswers | src/proxy.rs:138-150 | a URL that does not parse, a body that cannot be read and an origin that does not answer give 400 and 502 with the reason as text |
| Proxy.HitAnswers | src/proxy.rs:390-411 | a hit made of an answer of the origin has its status, its body, and under each name those of its values that are text |
| Proxy.InkIsText | src/proxy.rs:396-411 | a header value made of printable text, as the cache's mark and the length are, reads back as that text |
| Requests.OnlyEligibleTouchTheStore | src/proxy.rs:236-331 | in any history, each handler at work in a store works for an open request that the policy found eligible, at the stage that sent it, and a lookup is for that request's own key |
| Proxy.OnlyAcceptedAreFiled | src/proxy.rs:308-326 | the store gets a message exactly with a stored outcome, and it is the accepted response filed under the request's key; otherwise only an eligible request's lookup leaves anything |
| Proxy.UpstreamSees | src/proxy.rs:273-285 | upstream gets the client's method, URL and headers but for hop and host; when the answer may be stored, the encoding pinned and no body, otherwise the client's body |
| Proxy.HitReplaysMiss | src/proxy.rs:390-411 | when one request was answered and stored and a later one finds those bytes, the two responses have the same status and body, and for each name but the cache's own the same values if and only if the origin's were text |
| Transparency.StoringIsAnExchange | src/proxy.rs:308-326 | what one request handled without interruption stores is an accepted exchange with the origin |
| Requests.AlwaysLawful | src/proxy.rs:236-362 | every interleaving of requests in every chain and overlap of runs is a history of the world in which each object put is an answer the origin gave before, accepted and filed under its request's key |
| Requests.OneRecordEach | src/proxy.rs:123-151 | a run's notes and its open requests are together the requests that arrived; at rest the request counter is their number |
| Requests.NeverStuck | src/proxy.rs:123-362 | each open request has an event of its own that can happen next, until it is answered |
| Requests.AnswersAreTheProxys | src/proxy.rs:236-362 | in any history, what a request comes to once the origin has answered is the outcome and the response of handling it in one go |
| Transparency.NothingIneligibleIsKept | src/proxy.rs:236-331 | after any history of requests, what is on a disk, in a queue, with an upload task, in a pack or at the service is an answer of the origin to an eligible request, accepted by the policy |
| Transparency.HitsAreOriginResponses | src/proxy.rs:248-264 | in any history of requests, a hit's response says what an earlier accepted answer of the origin for the same target said: status, body, and under each header name its text values |
| Stats.Stats.FetchAdd | src/stats.rs:75-103 | one atomic addition changes one counter, modulo 2^64 |
| Stats.Stats.Record | src/stats.rs:74-124 | which counters one outcome adds to, and that no other changes |
| Books.ReportsMirrorTheRun | src/stats.rs:126-138 | over any run, the reports of uploads and of the pack add up to what the run's steps count, modulo 2^64, and at the end the bytes uploaded are those of the messages stored |
| Books.PackReported | src/store.rs:159-173 | a pack that was stored is reported with the number of objects gathered and the size of the entry that landed |
| Stats.Stats.RecordPacked | src/stats.rs:135-138 | the pack's two numbers are replaced, the rest stays |
| Stats.Stats.Summarise | src/stats.rs:140-157 | a summary taken while nothing is counted is the counters |
| Stats.RecordedIsBumps | src/stats.rs:74-105 | one uninterrupted record is exactly its list of additions, in order |
| Stats.CountersAreSums | src/stats.rs:74-124 | whatever additions interleave, each counter is the sum of those made to it modulo 2^64 |
| Stats.Conservation | src/stats.rs:74-124 | the outcome classes never exceed the requests nor stored the misses, and when nothing is half counted they are the exact numbers and add up |
| Stats.CountersSayWhatHappened | src/stats.rs:74-105 | when nothing is half counted each counter is what the requests are worth to it modulo 2^64: bytes from the cache those of the hits, bytes from the network those of all others that did not fail, time upstream that of the misses |
| Stats.QuietReadsAreWhole | src/stats.rs:140-157 | without an addition between its first and last load a summary is the counters at one moment |
| Stats.ReadsAreBounded | src/stats.rs:140-157 | whatever is counted meanwhile, the outcomes a summary shows are together at most the requests counted by its last load |
| Stats.SummariesTear | src/stats.rs:140-157 | but it can show more hits than requests |
| Books.UploadsWithinStored | src/stats.rs:74-133 | in any history, uploads stored plus uploads failed are at most the requests storing or noted as stored; at rest, at most the responses recorded as stored, and those at most the misses |
| Curlrc.Write | src/main.rs:405-425 | the marker and the setting are appended once, after a final newline |
| Curlrc.WriteAddsTheSetting | src/main.rs:405-425 | the lines of the file written are its own and then the marker and the setting with the bundle's path |
| Curlrc.ClearUndoesWrite | src/main.rs:405-445 | clearing after writing restores the text with its last line ended exactly under the stated condition, and removes the file exactly when only blank lines and settings are left |
| Curlrc.WriteOnce | src/main.rs:405-445 | writing is idempotent, a file that was not there is gone again, elsewhere than on macOS nothing is written, and a file without the marker is left alone |

## Left out

- Certificates, TLS interception, tunnels, trust stores and the keychain (src/ca.rs and parts of src/proxy.rs and src/main.rs): library and operating system calls.
- HTTP transport, streaming, redirects and timeouts: the origin's answer is one value; a streamed body is not followed.
- The control endpoints and the opening of tunnels, which record no request outcome of their own; the outcome recorded for a tunnelled port is not modelled.
- SHA-256, hexadecimal output, JSON and URL parsing: functions from outside, with the laws a lemma needs as its preconditions. Printing a header record is taken not to fail.
- Partial reads and writes of a file: reading or writing an object on disk is one step.
- Iteration of a concurrent set while it changes: the teardown's snapshot of the index and of the packed keys is one step.
- Request cancellation and task panics: a handler once started runs on.
- Entries that other programs file under the same prefix: histories start from an empty service and every writer in them is a run of this program.
- Reservations that are never finalised: they keep nobody else from reserving the key, only an entry does.
- Eviction and branch visibility at the service: lookups may find nothing at any time, except where a lemma asks that they are answered; no policy of eviction is modelled.
- Command line, environment variables, process spawning, the log file, human-readable sizes and the rendered summary.
- Objects too long for the pack's header fields: in histories of runs every object put fits them.
- The maxima of 64-bit lengths in the pack's cursor arithmetic: lengths add up as unbounded integers.
