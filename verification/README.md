# A Dafny model of collectd's stateful plugins and tools

collectd is a daemon that collects performance counters through plugins. Most plugin
code moves data between a library and the daemon; this project models the parts that
keep state from one event to the next, and proves what they guarantee over every run:

| modules | source | subject |
|---|---|---|
| `CurlJsonTrie`, `CurlJsonStream`, `CurlJson` | `src/curl_json.c` | the configuration tree, and the streaming matcher that walks it while JSON arrives |
| `CephConnection`, `CephKeys`, `CephNames`, `CephCounters`, `CephDaemon` | `src/ceph.c` | admin socket connections, dotted counter keys, compact names, counter types and latencies, and a daemon from its documents to the dispatched values |
| `Connectivity`, `ConnectivityNotes`, `ConnectivityDelivery` | `src/connectivity.c` | link changes handed from a netlink thread to a dequeue thread |
| `Amqp1` | `src/amqp1.c` | the outgoing message queue under link credit |
| `Collectdmon` | `src/collectdmon.c` | the respawn limiter |
| `TrafficGenerator` | `src/collectd-tg.c` | the send schedule of the traffic generator |
| `Aggregation` | `src/aggregation.c` | statistics with read-and-reset |
| `Cpu` | `src/cpu.c` | rates by CPU and by state, and their percentages |
| `Disk` | `src/disk.c` | the list of disks and the wrapping sector counters |
| `Common`, `Json` | | C string conventions; JSON documents, their parser events and nesting |

Each component has the same shape. Functions on values say what one C function does.
Lemmas say what that means: an independent reference, an invariant of every run, or an
exact condition. A class holds the fields that the C code changes in place, and its
methods, with the loops and branches of the source, are proved to have exactly the
effect of the functions. C pointers to tree nodes are indices into a store; the disk
list is a linked list of heap objects. NaN is `None`, other gauges are exact reals.
The threads of `Connectivity` and `Amqp1` are state machines over atomic steps; what runs
without a lock is split into its single loads, stores, unlinks and frees. The statements
about them hold for every interleaving, or name exactly the interleavings for which they
do.

`dafny verify dfyconfig.toml` checks the project.

## Where the code differs from what one would expect

* `cj_append_key` returns 0 for a key whose place in the tree is taken, but the key is
  dropped (`InsertionEffect` says exactly when, `AcceptedButDropped` gives an example).
* A document member takes the configured entry of its own name before the wildcard `*`,
  for good: if the path below that entry leads nowhere, the wildcard is not tried
  (`SelectionRule`, `NoBacktracking`). A path is split at its slashes up to the first empty
  component; the rest, slash included, is one name (`PartsSpelled`, `EmptyComponent`).
* `cj_submit_impl` advances its write position by untruncated lengths, so the name loop
  has a defined result exactly if everything before the last name fits the buffer
  (`TypeInstance`); two names of 127 bytes and a third are enough (`LongNamesSubmitted`).
* Keys of numbers directly below the root object get a leading dot, and empty keys at
  the front vanish (`OddKeys`). A number is reported under the plain path of its keys if
  and only if it sits in an object below the root and the outermost key is not empty,
  unless that is the only enclosing one (`FullKeyIsJoin`, `PlainDocument`).
* A number is skipped when its dotted key ends as in
  `filestore.journal_wr_bytes.avgcount` below those two keys, at any depth (`CephKeys`).
  A number outside every object has no key at all (`BareNumberHasNoKey`).
* A name may have 127 characters, and the schema stores 126 of them: `sstrncpy` is told
  one byte less than the buffer has. A counter whose full name has 127 or more characters
  is therefore never found by its data, its type lookup fails, and every poll of the daemon
  is aborted (`LongNameLost`, `LongNameAborts`; `StoredIsSent` and `AllPolls` have the exact
  condition).
* Keys are cut to 255 bytes, and a cut suffix is not recognised, so that the schema entry
  of a counter and its data can get different names also for that reason
  (`CutKeysDiffer`). `SchemaNameAgrees` and `PlainNameAgrees` say, for every counter below a
  section, exactly when the stored name is the name of a data entry; `CutKeys` says when a
  cut key still stands for its counter.
* The buffer for a reply is allocated with a length plus one in 32 bits. For the announced
  length 0xFFFFFFFF, and for no other, it is empty, and the first byte that follows is
  written past it (`ReadsInside`, `ExchangeOverruns`, `LongestLength`).
* A request count of 0 is taken as 1. A latency whose count leaves 0 between two polls is
  therefore wrong: 10.0 seconds over the first five requests are dispatched as 2.5
  instead of 2.0, and a very first request not at all (`FirstRequests`). The dispatched
  value is (sum change) / (count change) if and only if the count at the poll before was
  not 0, or is still 0, or has reached at least 2 with the same sum (`ComputedIsExpected`;
  `AllPolls` over whole runs).
* Two average latencies have a second meaning. A true mean of -1.1 is reported as NaN; a
  true mean of -12.0 is taken for a lack of memory, so that nothing is dispatched and the
  poll is aborted. There are no other exceptions (`KnownLatency`, `Marks`); both need a sum
  that falls.
* The send loop of the connectivity plugin reads an interface's three fields one by one
  while a restart resets them one by one, without the lock. This can notify one change
  twice, or a change to the unknown state (`NotifiedTwice`, `NotifiedUnknown`);
  `NotificationsRight` says exactly when it does.
* At shutdown the amqp1 plugin frees its queue without the lock. If a message is enqueued
  into the full queue between the drain's reading the head and its unlinking it, and only
  then, a message is freed twice (`NoDoubleFree`, `FreedTwice`).
* The guess of a counter's type by position agrees with the search by name if and only
  if entries of the same name have the same type (`GuessIsSearch`).
* The respawn limiter's ten exits in 120 seconds bound its own counter; a sliding window
  can contain twenty exits, and no more (`RespawnBound`, `TwentyIsReached`).
* Sector counters are unwrapped correctly if and only if they grew by less than 2^32
  (`DiffIsGrowth`).

## Model

| member | source | states |
|---|---|---|
| CurlJsonTrie.OnePath | src/curl_json.c:449-501 | In a tree that insertions build, a node is reached by one path only |
| CurlJsonTrie.InsertResolve | src/curl_json.c:471-499 | Adding one entry under the node at a path binds exactly that path extended by the name, and changes no other lookup |
| CurlJsonTrie.AppendLook | src/curl_json.c:449-501 | The status and the lookup of every path after an insertion, as a function of the lookups before it only: bound paths keep their binding, the new path is bound to the key, its prefixes become branches |
| CurlJsonTrie.AppendIsTree | src/curl_json.c:449-501 | Every insertion, failed ones included, leaves a tree: no dangling pointer, no cycle, no shared subtree |
| CurlJsonTrie.InsertionEffect | src/curl_json.c:471-500 | Nothing bound changes, a failed insertion changes no key, and the new key is found afterwards iff its path was free (or held this key), no shorter key is in the way and it ends in a name |
| CurlJsonTrie.AcceptedButDropped | src/curl_json.c:493-500 | A key that returns 0 and is not in the tree: its path is an existing subtree |
| CurlJsonTrie.ConfigureRealises | src/curl_json.c:449-501 | A prefix-free list of keys is accepted key by key, and the tree holds exactly these keys at their paths and only the branches they need |
| CurlJsonTrie.ConfigurationOrderIrrelevant | src/curl_json.c:449-501 | The same prefix-free keys in any order give the same lookup for every path |
| CurlJsonTrie.ConfigureWildcardFree | src/curl_json.c:203-210 | Paths without `*` never produce a wildcard entry, so that lookup is by exact name alone |
| CurlJsonTrie.PartsSpelled | src/curl_json.c:453-479 | The names of a path text are those that it spells, for every text: components joined by slashes, one slash in front ignored, each but the last cut to 4095 bytes; a slash within the last one only where it begins it |
| CurlJsonTrie.OrdinaryPath | src/curl_json.c:453-479 | Non-empty names without slashes, joined by slashes, with or without a slash in front: the path stands for exactly these names |
| CurlJsonTrie.EmptyComponent | src/curl_json.c:458-460 | Two slashes in a row end the splitting: the second one and all that follows is one name |
| CurlJsonStream.AdvanceAt | src/curl_json.c:214-223 | The array step increments the index of the top level, renames it and reloads its entry from the parent, and touches no other level |
| CurlJsonStream.LeaveAt | src/curl_json.c:296-302 | An end event zeroes the level it leaves and takes the array step of the one below, whatever the left level held |
| CurlJsonStream.EnterAt | src/curl_json.c:304-333 | A start event finds a zeroed level, and an array starts at the entry for name 0 |
| CurlJsonStream.NextMember | src/curl_json.c:271-282 | A key loaded over the level of the member before it leaves no trace of that member |
| CurlJsonStream.StreamIsWalk | src/curl_json.c:189-339 | Main refinement: for every document, configuration and stack position, the callbacks make exactly the submissions of a recursive walk (key, value, path of names), restore all lower levels and zero all upper ones; the run goes through iff the nesting fits, and an aborted run submitted a prefix. Which entry the walk takes at each level is the subject of `EntryIsChosen` and `SelectionRule` |
| CurlJsonStream.StreamItems | src/curl_json.c:214-223 | Array elements are matched under their indices 0, 1, 2, ... as names |
| CurlJsonStream.StreamMembers | src/curl_json.c:271-282 | Object members are matched under their keys in order |
| CurlJson.ConfiguredAgrees | src/curl_json.c:189-212 | The tree of paths of which none continues another answers every document path with the key that the list of configured paths selects for it, wildcards included |
| CurlJson.SelectionRule | src/curl_json.c:203-209 | Which key a document path selects: the one whose path has, level by level, the very name, or else the wildcard where no configured path goes on with the very name; none if there is no such path |
| CurlJson.ExactPathWins | src/curl_json.c:203-209 | A document path that is itself configured selects its own key, whatever wildcards are configured beside it |
| CurlJson.OnlyExactPaths | src/curl_json.c:203-209 | Without wildcards, only a document path that is itself configured selects a key |
| CurlJson.NoBacktracking | src/curl_json.c:203-209 | The choice of an exact name is not taken back when the path below it leads nowhere |
| CurlJson.EntryIsChosen | src/curl_json.c:189-212 | The entry that loading the keys of a path leads to is the one under the names that the list of configured paths chooses for it |
| CurlJson.WalkSelects | src/curl_json.c:189-212 | The tree walk selects exactly the scalars whose path selects a key and whose text parses, each with that key |
| CurlJson.ReadIsWalk | src/curl_json.c:972-980 | From the stack that a read sets up, a document is handled as the walk from the tree's root says |
| CurlJson.EndToEnd | src/curl_json.c:189-501 | Configure path texts of which none continues another, wildcards included, and stream any document within the depth limit: submitted are exactly the scalars whose path selects a key (`SelectionRule`) and whose value parses, in document order |
| CurlJson.WildcardBesideName | src/curl_json.c:189-501 | Paths a/b and /a/* written as text, and an object with members b and c: the first key gets b, the second one c |
| CurlJson.ReadAsNumbers | src/curl_json.c:284-294 | A document is read like the one with 1 and 0 for its booleans and numbers for its strings |
| CurlJson.Database.AppendKey | src/curl_json.c:449-501 | The loop over the path text computes the specified store and status for the names that the text spells (`PartsSpelled`), and keeps the tree property |
| CurlJson.Database.AddKeys | src/curl_json.c:635-735 | Keys are added up to and including the first that fails, and the result says whether one did; prefix-free keys never fail |
| CurlJson.Database.LoadKey | src/curl_json.c:189-212 | In-place effect of loading a key, the exact name before the wildcard (`EntryIsChosen`, `SelectionRule`), and its error at depth 0 |
| CurlJson.Database.AdvanceArray | src/curl_json.c:214-223 | In-place effect of the array step |
| CurlJson.Database.OnNumber | src/curl_json.c:234-266 | In-place effect of a scalar: at most one submission, then the array step |
| CurlJson.Database.Callback | src/curl_json.c:229-339 | Every callback has exactly the effect of the corresponding step, and aborts in the same cases |
| CurlJson.Database.Parse | src/curl_json.c:229-339 | A whole event stream has the effect of the run, up to the first abort |
| CurlJson.Database.Read | src/curl_json.c:961-987 | A read resets whatever an earlier one left behind and submits what the recursive walk says; too deep documents are aborted after a prefix of it |
| CurlJson.LongNames | src/curl_json.c:822-834 | Two names of the greatest length leave no room for the write position of a third |
| CurlJson.LongNamesSubmitted | src/curl_json.c:822-834 | A configured document reaches the submission with these names |
| CurlJson.Database.TypeInstance | src/curl_json.c:822-834 | The configured instance, or the names above the root joined by dashes and cut to the buffer; undefined iff everything before the last name is longer than the buffer |
| CurlJson.DashedParts | src/curl_json.c:822-834 | Names are joined by one dash between any two of them and nothing else |
| Common.DecimalMeaning | src/curl_json.c:220-222 | An array index is printed in decimal digits that denote it, without leading zeros |
| CephConnection.HandleEventProgress | src/ceph.c:1145-1252 | Every event fails, changes nothing, or strictly decreases (request stage, state, bytes left); any transferred byte decreases it; soundness is kept: asok is -1 iff UNCONNECTED, NONE implies UNCONNECTED, offsets do not exceed what was asked for, and the reply block has (length + 1) mod 2^32 bytes |
| CephConnection.TakeProgress | src/ceph.c:1254-1404 | The same for a whole turn of the poll loop, connecting, abandoning and errors included |
| CephConnection.RequestOrder | src/ceph.c:1145-1252 | Over any run a VERSION request can only become SCHEMA and then NONE, a DATA or SCHEMA request only NONE |
| CephConnection.VersionOnWire | src/ceph.c:1180-1207 | The schema is requested iff the four bytes received are the big-endian number 1 (`ReadBack`), and nothing is requested before the fourth byte |
| CephConnection.ReadBack | src/ceph.c:1190-1216 | Reading four bytes undoes writing a number of 32 bits most significant byte first |
| CephConnection.SentAgain | src/ceph.c:1190-1216 | Writing the number read from four bytes gives these bytes again |
| CephConnection.VersionAnswered | src/ceph.c:1180-1207 | A daemon that sends its version in network order, split in any way, is asked for its schema iff the version is 1 |
| CephConnection.CommandTexts | src/ceph.c:1155-1156 | The three command texts |
| CephConnection.ExchangeDelivers | src/ceph.c:1145-1252 | However the socket splits writes and reads: when JSON is handed over, exactly the command was written and as many bytes as announced were received; they are the ones handed over iff the announced length is not 0xFFFFFFFF. The length is read in network order (`ReadBack`) |
| CephConnection.ChunkIndependence | src/ceph.c:1145-1252 | Two exchanges against the same bytes, split in any two ways, hand over the same document and write the same command; the document is the reply iff the announced length is not 0xFFFFFFFF. The length is read in network order (`ReadBack`) |
| CephConnection.CompleteReplyDelivered | src/ceph.c:1145-1252 | The converse: an exchange without failure has handed over a document iff the received bytes form a complete reply, except that an empty document needs one more read, which delivers it; it is the reply iff the announced length is not 0xFFFFFFFF. The length is read in network order (`ReadBack`) |
| CephConnection.DocumentHandedOver | src/ceph.c:1145-1252 | For every text shorter than 2^32 - 1 bytes: a daemon that sends its length in network order and the text, split in any way, has exactly the text handed over, and does so once all has arrived (an empty text needs one more read) |
| CephConnection.DocumentInOnePiece | src/ceph.c:1145-1252 | The same answer in one piece is handed over, and the connection is done with |
| CephConnection.ReturnCodes | src/ceph.c:1145-1252 | The result of an event: the socket's error, -ENOTSUP for four version bytes other than 0 0 0 1, the verdict on a document that has arrived, and 0 otherwise |
| CephConnection.TurnMeaning | src/ceph.c:1254-1404 | A turn by cases: a served connection is left alone; a failed connect, a bad poll event and a failed event give the connection up, closed and without request; without event it stays as it was or is freshly connected; otherwise the event's effect stands |
| CephConnection.ReadsInside | src/ceph.c:1214-1230 | Every read that the system may make stays inside the allocated block iff the announced length is not 0xFFFFFFFF |
| CephConnection.ExchangeOverruns | src/ceph.c:1214-1245 | Over a whole exchange, split in any way: a read has written past the block iff the announced length is 0xFFFFFFFF and at least one byte followed it |
| CephConnection.LongestLength | src/ceph.c:1214-1230 | An exchange in which it does: four bytes FF and one more |
| CephConnection.OneShot | src/ceph.c:1145-1252 | An unsplit exchange ends with a closed, finished connection and delivers the reply iff the announced length is not 0xFFFFFFFF. The length is read in network order (`ReadBack`) |
| CephConnection.HandleEventAt | src/ceph.c:1145-1252 | The switch over the connection state, field by field, has the specified effect and result |
| CephConnection.PrepareAt | src/ceph.c:1254-1292 | Connecting or waiting, with the specified result |
| CephConnection.RunRound | src/ceph.c:1337-1404 | One pass over all connections: each takes its own turn and no other is affected; the loop ends with result 0 only if no request is unserved |
| CephConnection.MainLoop | src/ceph.c:1308-1412 | Every connection goes through its turns round by round, and in the end all are closed, with their buffers freed |
| CephKeys.NumberReported | src/ceph.c:257-304 | The buffer holds the dotted path of the enclosing keys cut to its size, except for the one skipped counter |
| CephKeys.StreamIsCalls | src/ceph.c:247-356 | Main refinement: for every value below an object, the key stack reports each number under its dotted path (arrays transparent), the stack is restored, and the parse goes through iff the object nesting fits and the handler, whose verdict may depend on all its earlier calls, accepts one call after the other |
| CephKeys.DocumentReported | src/ceph.c:247-356 | The same for a whole document with an object at its root |
| CephKeys.FullKeyIsJoin | src/ceph.c:257-304 | A number's key before cutting is the plain dotted path of its keys iff it sits below the root in an object, and the outermost key is not empty unless it is the only enclosing one |
| CephKeys.OddKeys | src/ceph.c:257-304 | A number directly below the root and one below a leading empty key, whose keys are not the plain paths |
| CephKeys.CallsAreReported | src/ceph.c:247-356 | The calls for a value are one for each number found in it that is not skipped, in document order |
| CephKeys.ReportedPlain | src/ceph.c:257-304 | Numbers on plain paths are reported under these, cut or not; where nothing is cut, this holds of a document only if all its numbers but the skipped ones are on plain paths |
| CephKeys.PlainDocument | src/ceph.c:247-356 | A document of such numbers is reported under the plain dotted paths cut to the buffer |
| CephKeys.BareNumberHasNoKey | src/ceph.c:257-304 | A number outside every object reaches the callback without a key, for every such document |
| CephKeys.JournalCounter | src/ceph.c:273-290 | The document of filestore.journal_wr_bytes: the count is skipped iff special metrics are converted, and the sum is reported |
| CephKeys.Parser.OnNumber | src/ceph.c:257-304 | The number callback over the key stack, with its special case |
| CephKeys.Parser.OnStartMap | src/ceph.c:311-323 | Push of the current key, aborting when the stack is full |
| CephKeys.Parser.OnEndMap | src/ceph.c:325-338 | Pop that clears the slot |
| CephKeys.Parser.Parse | src/ceph.c:723-744 | Callbacks in order until one aborts have the effect of the run |
| CephKeys.Parser.Process | src/ceph.c:1057-1112 | The calls made are the reference's iff nothing aborts, and a prefix of them in any case |
| CephNames.CamelIsCharwise | src/ceph.c:430-452 | Token-wise capitalisation is the character-wise one: a character is capitalised iff it is the first or follows a delimiter |
| CephNames.CompactMeaning | src/ceph.c:400-473 | The result fits the buffer, has no delimiter, is a prefix of the camel-cased stem followed by the whole Plus or Minus, is complete if there is room and fills the buffer otherwise |
| CephNames.Characters | src/ceph.c:428-445 | The four delimiters, and the capitals of the letters a to z |
| CephNames.SignsSpelled | src/ceph.c:419-467 | A trailing plus is spelled Plus and a trailing minus Minus, whole if there is room and behind a cut stem otherwise; without a sign the name is the stem cut to the buffer |
| CephNames.AppendTokens | src/ceph.c:428-459 | The token loop stays inside the buffer, keeps it terminated, and leaves the camel-cased text cut to fit |
| CephNames.CompactDsName | src/ceph.c:404-473 | The buffer as a C string is the specified name; buffers of at most five bytes are refused untouched |
| CephNames.SuffixesAgree | src/ceph.c:518-540 | All keys of one counter that are not cut stand for the counter, and make the same name |
| CephNames.PartsDecide | src/ceph.c:518-540 | A key of at most two parts keeps its suffix, and a longer one loses it |
| CephNames.StoredIsSent | src/ceph.c:585-590 | The name that the schema stores for a key is the name made of it iff the full name has at most 126 characters |
| CephNames.SchemaNameAgrees | src/ceph.c:546-593 | For every counter below a section and any two suffixed keys of it, cut or not: the stored name of the one is the name of the other iff their lengths are as `NamesAgree` says; for keys that fit, iff name and ending have at most 126 characters |
| CephNames.PlainNameAgrees | src/ceph.c:546-593 | The same for a counter that comes under its plain key |
| CephNames.LongNameLost | src/ceph.c:585-590 | A counter with keys that fit, whose name has 127 characters while the schema stores 126 |
| CephNames.CutKeys | src/ceph.c:518-540 | From a key cut to 255 bytes the counter is recovered iff the whole key fits, or the cut falls just behind a counter that does not itself look suffixed |
| CephNames.CutKeysDiffer | src/ceph.c:257-304 | A counter whose schema entry and data get different names, because one key is cut inside its suffix |
| CephNames.OneSuffix | src/ceph.c:526-537 | No key ends in two of the suffixes, so the order in which they are tried is irrelevant |
| CephCounters.GuessIsSearch | src/ceph.c:880-906 | The lookup by index guess equals the search by name at every index and for every name iff equal names have equal types |
| CephCounters.KnownCounter | src/ceph.c:817-849 | For a counter in the table: the mean since the last poll, NaN iff the count did not grow or that mean is the sentinel; only its own row is renewed |
| CephCounters.KnownLatency | src/ceph.c:907-935 | At the handler: the mean is dispatched iff the count grew and the mean is neither -1.1 nor -12.0; NaN iff the count did not grow or the mean is -1.1; failure without dispatch iff it is -12.0; the row is renewed in any case |
| CephCounters.Marks | src/ceph.c:817-849 | A mean of each of the two values, with what becomes of it |
| CephCounters.FetchEffects | src/ceph.c:866-975 | One number in any session: refused iff its name is unknown; a plain counter is dispatched whatever its key ends in; of a latency, the sum or the daemon's average as configured, and no other part |
| CephCounters.PollFrom | src/ceph.c:866-975 | From any counter on, a poll whose names the schema has stored whole dispatches the computed values and renews the rows in order |
| CephCounters.UnknownNameAborts | src/ceph.c:951-965 | A number of a name that is not in the schema aborts the poll, wherever it comes |
| CephCounters.LongNameAborts | src/ceph.c:854-906 | A counter whose name has 127 characters is not found in the schema that stores it, and every poll is aborted, in either mode |
| CephCounters.ComputedIsExpected | src/ceph.c:914-924 | The dispatched latency is (sum change) / (count change), or NaN without growth, of the reported counts iff the last count was not 0, or the count is 0, or it is at least 2 and the sum is unchanged |
| CephCounters.PollsComputed | src/ceph.c:757-975 | Over any number of polls with non-decreasing sums: all go through iff no name has 127 characters; then the table has one row per latency counter for ever, and each counter is dispatched once with the computed value |
| CephCounters.RunReliable | src/ceph.c:914-924 | Over a whole run, computed and true values coincide iff every latency's counts are reliable in every poll |
| CephCounters.AllPolls | src/ceph.c:757-975 | Over any number of polls with non-decreasing sums: all go through iff no name has 127 characters; then there is one row per latency counter for ever, and everything dispatched is (sum change) / (count change) of the reported counts since the poll before, or NaN without growth, iff no latency's count leaves 0 between two polls (other than to 2 or more with the sum unchanged) |
| CephCounters.FirstRequests | src/ceph.c:914-924 | Two polls for which it is not: 2.5 is dispatched for a true 2.0 |
| CephCounters.LongRunPoll | src/ceph.c:911-945 | With long running averages, whatever the session's indices: the poll goes through iff no name has 127 characters; then every counter with a value is dispatched once and in order, latencies with the daemon's own average, and the latency table is left alone |
| CephCounters.Daemon.FindType | src/ceph.c:854-861 | The search loop finds the first entry of that name |
| CephCounters.Daemon.FindRow | src/ceph.c:804-811 | The search loop finds the first row of that name |
| CephCounters.Daemon.UpdateLast | src/ceph.c:757-798 | The row at the index is renewed if it has the name, otherwise one is appended |
| CephCounters.Daemon.LastAvg | src/ceph.c:817-849 | The index guess, the row before it, the search, and the new table |
| CephCounters.Daemon.FetchData | src/ceph.c:866-975 | One number of a poll: the counters of the session, the table, the dispatch and the return code |
| CephDaemon.DocumentFetched | src/ceph.c:1032-1112 | Any document with an object at its root is parsed to the end iff its nesting fits and the stateful data handler gets through the numbers of its calls |
| CephDaemon.DocumentFinds | src/ceph.c:247-356 | The numbers of a schema or data document, made of sections of counters, are those of its counters in order, with their keys |
| CephDaemon.SchemaParsed | src/ceph.c:746-755 | A schema document, the counter with the special case included, is parsed to the end, and its calls define the schema; the types are the subject of `SchemaTyped` |
| CephDaemon.SchemaTyped | src/ceph.c:546-593 | In the schema parsed from a document, a counter is a rate iff bit 3 of its number is set, a latency iff bit 2 is and bit 3 is not, and a size otherwise; under conversion filestore.journal_wr_bytes is a rate |
| CephDaemon.TypeNumbers | src/ceph.c:580-582 | The numbers 10, 5 and 2 mean a rate, a latency and a size, and a number means one type only |
| CephDaemon.SchemaStored | src/ceph.c:546-593 | That schema holds, for every counter, the name its data will use, cut to 126 characters |
| CephDaemon.FetchAlike | src/ceph.c:866-975 | Numbers that mean the same under the type their name has are handled alike, one after the other |
| CephDaemon.DocumentIsPoll | src/ceph.c:1032-1112 | A data document through key stack, names and handler is the poll of what its texts say, in either mode |
| CephDaemon.EndToEnd | src/ceph.c:247-975 | A schema document and any number of data documents: all data documents go through iff no counter's name has 127 characters; then each counter is dispatched in each of them in order, and all values are the ones called for by its type (`SchemaTyped`) iff the counts of the latencies are reliable |
| CephDaemon.DispatchedAs | src/ceph.c:247-975 | From the texts of all documents alone: every counter is dispatched once in each data document, under its name; as a rate with the integer it shows if bit 3 of its schema number is set, as a size with the real number it shows if bits 2 and 3 are not, and as a latency with (sum change) / (count change), or NaN without growth or before, wherever the count before was not 0 |
| Connectivity.RunInv | src/connectivity.c:414-657 | The invariant of list, flag and both program counters holds after every interleaving of critical sections, single loads of the send loop and single stores of a restart |
| Connectivity.NoLostWakeup | src/connectivity.c:499-545 | In every reachable state: before a blocking recv with statuses to send, the dequeue thread is not parked in pthread_cond_wait |
| ConnectivityDelivery.EventuallyDelivered | src/connectivity.c:627-657 | From such a state the dequeue thread alone reaches one where every interface's status has been sent and the flag is clear |
| ConnectivityDelivery.BatchHandled | src/connectivity.c:499-582 | A whole batch of netlink messages while the lock is free: all messages before the first end mark or error are taken, so that each device is up or down as the last message about it said, and all others are as before; an error ends the thread |
| ConnectivityNotes.Agreement | src/connectivity.c:462-474 | In every reachable state and for every interface: an unsent change implies the flag, a known status without unsent change was notified last; and while all its notifications were right, they are a subsequence of the changes (never more), each to a different and known status |
| ConnectivityNotes.NotificationsRight | src/connectivity.c:627-643 | For every interleaving that does not end inside a notification: each notification has reported the latest change, once, iff no load or store fell between those of the other thread in one of three ways |
| ConnectivityNotes.StepRight | src/connectivity.c:627-643 | A step makes a notification wrong, now or later, iff it is one of these three |
| ConnectivityNotes.NotifiedTwice | src/connectivity.c:985-990 | A reachable state with one change and two notifications of it |
| ConnectivityNotes.NotifiedUnknown | src/connectivity.c:985-990 | A reachable state with a notification of a change to the unknown state |
| Connectivity.DispatchInv | src/connectivity.c:627-643 | A notification from fields read earlier, whatever was reset in between, keeps the invariant |
| Connectivity.ResetInv | src/connectivity.c:972-994 | Each store of a restart, made without the data lock at any point of the send loop, keeps the invariant |
| ConnectivityDelivery.LoopSends | src/connectivity.c:627-643 | The send loop, step by step, has the effect of one pass over the list |
| Connectivity.Interfaces.HandleLinkState | src/connectivity.c:444-474 | Find or add the device, note the change, set the flag |
| Connectivity.Interfaces.SendInterfaceStatus | src/connectivity.c:627-643 | Every unsent change is notified once and marked |
| Connectivity.Interfaces.ForgetStatuses | src/connectivity.c:985-990 | All statuses become unknown and unsent |
| Amqp1.RunInv | src/amqp1.c:116-165 | Queue order and limit, tags, send order, and the place of every message, after every interleaving, with the drain split into read, unlink and free |
| Amqp1.Conservation | src/amqp1.c:344-355 | For every interleaving, each message ever enqueued is in exactly one of queued, detached, sent, evicted, unlinked by the drain |
| Amqp1.NoDoubleFree | src/amqp1.c:295-301 | For every interleaving that leaves the drain's loop body: no message is freed twice iff none was enqueued into a full queue between a drain's reading the head and its unlinking it; then exactly the sent, evicted and drained messages are freed |
| Amqp1.Disturbance | src/amqp1.c:295-301 | What such an enqueue does: the head is freed twice, and the next message, which in a queue of one is the message just enqueued, is unlinked and never freed |
| Amqp1.FreedTwice | src/amqp1.c:295-301 | A run from the start, with a limit of 2, in which it happens |
| Amqp1.OrderAndTags | src/amqp1.c:129-162 | Messages go out in enqueue order under the tags 2, 3, 4, ... without gap; whatever left the queue is older than what is in it; a positive limit is never exceeded |
| Amqp1.EnqueueMeaning | src/amqp1.c:344-355 | In every reachable state, enqueueing keeps the newest messages up to the limit, the new one last, and evicts and frees the oldest beyond it |
| Amqp1.CreditUsed | src/amqp1.c:129-146 | In every reachable state, a send call detaches the oldest messages until its credit is used up or none is left |
| Amqp1.NothingNewSent | src/amqp1.c:125-128 | Once stopping, with no call past its test, only the messages already detached are sent, in any run |
| Amqp1.NothingLost | src/amqp1.c:344-355 | Without a limit and as long as the drain has unlinked nothing, sent and detached messages are exactly those that left the queue, in order |
| Amqp1.Sender.EnqueueLocked | src/amqp1.c:344-355 | The critical section of enqueueing, with eviction of the oldest |
| Amqp1.Sender.DetachLocked | src/amqp1.c:129-146 | The detaching loop takes the first min(credit, length) messages and reserves their tags |
| Amqp1.Sender.SendOutMessages | src/amqp1.c:116-165 | A call sends nothing once the plugin is stopping, and else exactly min(credit, queue length) messages, the oldest first, under consecutive tags, and frees each once |
| Amqp1.Sender.Drain | src/amqp1.c:295-301 | Without interference, the whole queue is freed in order at the end |
| Collectdmon.GuardInv | src/collectdmon.c:242-267 | The counter stays within 0 and 10 and names the exit at which the anchor was set, at most 120 seconds ago |
| Collectdmon.ResetComes | src/collectdmon.c:248-265 | The anchor is replaced after at most as many exits as the counter has left, with the long sleep before the last of them |
| Collectdmon.TwentyOneSpread | src/collectdmon.c:242-267 | Any twenty-one consecutive exits take more than 120 seconds |
| Collectdmon.RespawnBound | src/collectdmon.c:242-267 | For every run: the counter never exceeds 10, and every closed window of 120 seconds has at most 20 exits |
| Collectdmon.TwentyIsReached | src/collectdmon.c:242-267 | The bound is exact: a run with twenty exits in one window |
| Collectdmon.SleepLoop | src/collectdmon.c:255-265 | The interrupted sleep ends after the full 300 seconds, or with the first interruption at which the program is to end, and not before |
| Collectdmon.Monitor.CheckRespawn | src/collectdmon.c:242-267 | In-place effect of one call, and when it sleeps |
| Collectdmon.Monitor.Supervise | src/collectdmon.c:352-376 | Over a run the guard is the specified one, and at most every eleventh exit is followed by the long sleep |
| TrafficGenerator.SendTimesSorted | src/collectd-tg.c:379-411 | Send times never decrease, however ties are broken |
| TrafficGenerator.SpreadKept | src/collectd-tg.c:216-233 | The spread of the next times and the account of every list are kept by any run |
| TrafficGenerator.Fairness | src/collectd-tg.c:379-411 | After any number of sends the next times lie within max(S0, I), and the send counts of any two lists satisfy abs(ki - kj) * I <= max(S0, I) + S0 |
| TrafficGenerator.Generator.GetRoot | src/collectd-tg.c:126-137 | A value list to which no other compares below |
| TrafficGenerator.Generator.Generate | src/collectd-tg.c:379-411 | The main loop produces such a schedule |
| Aggregation.RadicandIsDeviations | src/aggregation.c:405-407 | num * squares_sum - sum^2 is num times the sum of squared deviations from the mean, and not negative |
| Aggregation.RootsRight | src/aggregation.c:405-407 | The reported standard deviation is the root of the population variance |
| Aggregation.ReadReports | src/aggregation.c:394-415 | A read reports the statistics of exactly the values described, with minimum <= average <= maximum |
| Aggregation.EveryReadRight | src/aggregation.c:304-415 | For every run: each read reports the values since the read before, and the numbers reported plus the pending one count every non-NaN update once |
| Aggregation.Aggregate.OnRate | src/aggregation.c:304-318 | In-place effect of an update |
| Aggregation.Aggregate.OnRead | src/aggregation.c:394-415 | The report, and the reset |
| Cpu.ActiveIsNonIdle | src/cpu.c:417-442 | Sum exchange with NaN as identity: the global active rate, summed CPU by CPU, is the sum of the global non-idle rates |
| Cpu.PercentsAddUp | src/cpu.c:474-491 | The percentages by state of a balanced line add up to 100 whenever its total is neither NaN nor zero |
| Cpu.LinesBalanced | src/cpu.c:533-565 | The global line and every CPU's line are balanced |
| Cpu.DispatchesAddUp | src/cpu.c:474-565 | What a commit dispatches for each CPU, or for the global line, adds up to 100 whenever the rates behind it do not add up to 0 |
| Cpu.CommitReports | src/cpu.c:474-565 | What a commit dispatches, for every table: under each CPU (or -1) and state at most one value, ordered by both, which is 100 times the state's own rates over all rates of that CPU (or of all CPUs), and none iff the state has no rate there or is 0 out of 0 |
| Cpu.RatesKept | src/cpu.c:509-597 | For every run: the rate of a CPU and state is that of the last convertible value staged since the reset, and the CPUs counted are those up to the last one staged since |
| Cpu.HistoryKept | src/cpu.c:361-394 | For every run: the conversion state of a CPU and state is the whole history of its staged values, however often the table grew, was aggregated or reset |
| Cpu.StageConv | src/cpu.c:570-597 | Staging a value changes the conversion state of its own cell only |
| Cpu.Plugin.Alloc | src/cpu.c:361-384 | The table grows to cover a CPU and keeps every cell |
| Cpu.Plugin.OnValue | src/cpu.c:570-597 | In-place effect of staging; on success the CPU is covered and has a value |
| Cpu.Plugin.AggregateCpu | src/cpu.c:422-441 | One CPU's row is summed into its active cell and into the global rates |
| Cpu.Plugin.Aggregate | src/cpu.c:417-442 | The nested loops compute the specified table and global line |
| Cpu.Plugin.CommitOne | src/cpu.c:474-491 | The percentages of one line, NaN left out |
| Cpu.Plugin.Commit | src/cpu.c:533-565 | The loop over the CPUs, or the global line, dispatches what `CommitReports` says, and leaves the aggregated table |
| Cpu.Plugin.OnReset | src/cpu.c:509-515 | No cell has a value, and no CPU is counted |
| Disk.DiffIsGrowth | src/disk.c:870-878 | The counter difference is the true growth iff that is less than 2^32 |
| Disk.ObserveAllMeaning | src/disk.c:795-884 | After all lines every disk is what its own lines make of it, names stay distinct, old disks keep their places |
| Disk.LineCounts | src/disk.c:795-884 | A line has an effect iff it has 7 fields or at least 14; then its disk is in the list with its counters, and a new disk starts with 512 bytes for each sector |
| Disk.PollMeaning | src/disk.c:794-1044 | After a poll the list holds exactly the disks seen, once each, survivors in their old order and newcomers in order of appearance, each with its own accumulators |
| Disk.AfterPollsInv | src/disk.c:794-1044 | Over any run of polls names stay distinct and all disks carry the current poll count |
| Disk.BytesCounted | src/disk.c:866-884 | Over any run of polls that each report the disk, the byte accumulators grow by exactly 512 for every true sector since any of these polls, wrap-arounds included |
| Disk.DiskList.FindNode | src/disk.c:804-807 | The search finds the first node of that name and its predecessor |
| Disk.DiskList.ObserveLine | src/disk.c:795-884 | One line updates or appends one node of the linked list, in place |
| Disk.DiskList.Unlink | src/disk.c:1032-1043 | One node leaves the linked list, and the rest stays linked |
| Disk.DiskList.PurgeMissing | src/disk.c:1023-1044 | The nodes not seen in this poll, and no others, leave the list |
| Disk.DiskList.Read | src/disk.c:794-1044 | A whole poll has the specified effect on the linked list |

## Left out

- The libraries around the code (yajl, curl, sockets, poll, pthreads, Proton, netlink, the clock, random numbers): their answers are events, turns or parameters.
- Memory-allocation failures, logging and configuration parsing.
- Widths of machine integers other than where stated: the delivery tag, array indices, byte accumulators and poll counters do not wrap.
- IEEE rounding and infinities in sums: gauges are exact reals with NaN as `None`.
- c_avl and c_heap are not part of this model: a tree level is a map with insert-if-absent, and `GetRoot` scans for a smallest time.
- yajl's nesting limit is a parameter, and the value parser is an uninterpreted function of key and text.
- CurlJson.EndToEnd: for paths of which none continues another; what insertion does with the others is the subject of `InsertionEffect`.
- CephNames.CompactDsName: a source without any name character is outside of it, because the C code then reads an unwritten buffer.
- CephCounters.KnownCounter: a name missing from a table that covers the index is outside of it, because update_last is then given the index -1.
- CephCounters.AllPolls: for polls that report the same counters in the same order; for other orders only the effect of each number (`FetchData`) and of each lookup (`GuessIsSearch`, `KnownCounter`) is stated.
- The time limit of the ceph poll loop appears as the round in which the loop stops; the JSON handler's verdict is a parameter of the event.
- CephDaemon.EndToEnd: for counters in a named section, whose keys fit the buffer, other than `filestore.journal_wr_bytes` with its special case, and for plain numbers whose keys do not end like parts of a latency; schema documents bring one number for each counter.
- The numbers that sscanf and atoi read from a text are uninterpreted functions of it.
- What happens in memory after a write past a block: bytes outside of it are not part of this model.
- Memory models: each load and store of a shared field is one step, all threads see them in one order, and unlinking the head of a queue is one step also where the lock is not held.
- Stopping the connectivity plugin for good, its ignore list and the notification's payload.
- In the message queue, encoding of a message and settlement are left out, as is the retry delay.
- The respawn bound is for runs that no signal ends and a clock that does not go back.
- In the traffic generator, all lists have one common interval, as the command line sets it; the waiting for the due time and the values sent are left out.
- Aggregation: the list of instances, their naming and the conversion of values to rates.
- Cpu: raw values without aggregation, the single percentage when states are not reported, the count of CPUs, and the platforms' readers.
- Disk: splitting a line into fields and reading numbers from them; operation and time counters, discards and flushes, averages and submissions, none of which feeds back into the list.
