# erlm, modelled and proved in Dafny

erlm runs a compiled Elm program inside Duktape and speaks to Erlang over a port: packets arrive on stdin, become
JavaScript values and are passed to input ports; values sent to output ports become Erlang terms and leave as packets
on stdout; `setTimeout` and `clearTimeout` work through the same event loop. This project models that program and
proves what its parts guarantee, alone and together.

- `Options`, `Sequences`, `Texts`, `JsValues`, `ErlTerms`: basics, byte strings as C sees them, JavaScript values as
  finite trees, Erlang terms with cons cells (improper lists included).
- `Duktape`: one frame of the value stack with the API calls erlm makes, as deterministic contracts wherever the
  callee's code is not involved.
- `BridgeSpec`, `Bridge`, `BridgeProperties`: the two translators of `src/duk_erlang.c` as recursive programs over the
  stack, the functions they compute, and the normal form, fixed points and inverses of the round trip.
- `Glue`, `Ports`: the stack discipline of `src/duk_util.c`, `src/duk_elm.c` and the port handling of `src/erlm.c`.
- `Bits`, `ArgparseSpec`, `Argparse`, `ArgparseProperties`, `ArgparseWriting`, `ErlmMain`: the in-place argument parser
  of `lib/argparse/argparse.c` against a pure reading of the line, what that reading guarantees, how it gives back what
  was written on the line, and erlm's own table down to the characters of the line.
- `PacketIo`: the two-byte framing of `src/io.c` over arbitrary short reads and writes.
- `EventMachine`, `Events`, `Timers`, `Runtime`: timers and output as a state machine for both backends of
  `src/events.c`, the theorems over all its runs, and the program's handlers and event loop tied to it.

The imperative parts are classes and methods with loops, as in the source. Each is proved against a function of its
inputs or of the old state, and the results about all inputs or all runs are lemmas about those functions. Every lemma
carries `{:induction false}`: its proof is the one written down.

Contracts of the libraries erlm calls (of these, only Duktape's code is part of the repository) are these. `erl_length` is -1 on
a list that is not proper. `erl_iolist_length` is non-negative for lists of bytes 0 to 255, binaries and iolists,
possibly ending in a binary. `erl_mk_string` and `duk_push_string` stop at a NUL byte. Enumeration visits own
properties in the order in which the model lists them. `duk_next` resolves its index before pushing. A property of an
enumerator reads as undefined; Duktape keeps the enumerated keys on it with the value true (`lib/duktape/duktape.c`,
lines 52256-52263), which makes no difference where erlm looks, since neither value has the properties that are read
from it next. `read` and `write` move any number of bytes up to the one asked for, and `read` refuses a count beyond
SSIZE_MAX. Under epoll, adding a descriptor that is registered fails; under kqueue, `EV_ADD` replaces the registration.

Four behaviours of the code differ from what a user would expect; each is proved as it is, with its exact condition.

- An object-alike list becomes an *array* with named properties. Sending it back yields the empty list, and as the
  argument list of an input packet it calls the port with no arguments (`ObjectAlikeIsLost`). The arguments of a packet
  reach the port if and only if they are no such list (`ArgumentsArrive`, `KeywordArgsVanish`).
- `clearTimeout` aside, a table entry is removed only after a call, so that `setTimeout` with something that is no
  function leaves its entry behind for good (`OrphanedEntries`).
- Through a signed `char`, a packet is read back if and only if both its length bytes are below 128 (`FrameRoundTrip`,
  `StreamRoundTrip`).
- A value given to a flag (`--flag=x`) stays pending and is taken by the next long option that wants a value
  (`StaleValue`, `StaleLine`). `CarriedIffStale` gives the exact condition, in terms of tokens read one at a time with
  nothing carried; on all other lines, forgetting pending values changes nothing (`NothingCarriedOver`).

## Model

| member | source | states |
|---|---|---|
| `Bridge.GetTerm` | src/duk_erlang.c:43-67 | returns the term for the value at any index, negative or absolute, and leaves the stack exactly as it was, at every recursion depth |
| `Bridge.GetArray` | src/duk_erlang.c:3-25 | elements become a list in index order; the buffer is filled forward and consed up backward; stack restored |
| `Bridge.FillBuffer` | src/duk_erlang.c:9-19 | the enumeration loop fills every buffer slot and never writes outside the buffer |
| `Bridge.GetObject` | src/duk_erlang.c:27-41 | own properties become a list of {charlist, term} pairs, last enumerated first; stack restored |
| `Bridge.IsObjectAlike` | src/duk_erlang.c:69-89 | accepts exactly the improper lists and the proper lists whose every element is a 2-tuple starting with an atom |
| `Bridge.PushTerm` | src/duk_erlang.c:91-153 | terminates; aborts exactly when an unsupported type is reached; otherwise adds exactly one value, the one `ToJs` gives, above an unchanged stack |
| `Bridge.PushTuple` | src/duk_erlang.c:112-119 | a tuple becomes an array of its elements in order, through a relative index |
| `Bridge.PushList` | src/duk_erlang.c:124-149 | iolist, object-alike and plain lists are told apart in that order |
| `Bridge.PushEntries` | src/duk_erlang.c:129-140 | an object-alike list becomes an array carrying the assignments of its entries, left to right, through an absolute index across nested pushes |
| `Bridge.PushCells` | src/duk_erlang.c:141-148 | any other proper list becomes an array of its elements, through an absolute index across nested pushes |
| `BridgeProperties.CollapseIsIodata` | src/duk_erlang.c:124-128 | exactly the strings, the arrays made hereditarily of strings, and empty objects reach Erlang as iolists, with the concatenated text |
| `BridgeProperties.RoundTripIsNorm` | src/duk_erlang.c:43-148 | for every value, pushing the term obtained from it gives exactly its normal form; the trip never aborts |
| `BridgeProperties.SentListsAreNotObjectAlike` | src/duk_erlang.c:129-139 | no list that comes out of a JavaScript value takes the object-alike branch |
| `BridgeProperties.ElementAt` | src/duk_erlang.c:13-22 | position by position, array elements keep their index |
| `BridgeProperties.PropertyAt` | tests/duk_erlang.c:187-199 | position by position, properties appear in reverse enumeration order |
| `BridgeProperties.FixedPoints` | src/duk_erlang.c:43-148 | a value comes back unchanged if and only if it is a number, a NUL-free string, or a plain array in which every array holds a number at some depth |
| `BridgeProperties.ThirdTripChangesNothing` | src/duk_erlang.c:43-148 | two round trips reach a fixed point from every value |
| `BridgeProperties.OneTripSuffices` | src/duk_erlang.c:43-148 | one trip reaches it if and only if every array that does not collapse, and every property of every object, holds a number |
| `BridgeProperties.OneTripIsNotEnough` | src/duk_erlang.c:49-53 | the array [true] becomes ["true"] and then "true" |
| `BridgeProperties.TermFixedPoints` | src/duk_erlang.c:91-149 | a term comes back unchanged if and only if it is a float, a flat NUL-free charlist, or a proper non-iolist list of such terms |
| `BridgeProperties.CanonicalBijection` | src/duk_erlang.c:43-148 | on canonical values and canonical terms the two translators are mutually inverse |
| `BridgeProperties.TermRoundTrip` | src/duk_erlang.c:91-149 | every term that can be pushed comes back as its normal form: integers as floats of the same value, unsigned ones of their two's complement, atoms, binaries and iolists as the charlist of their text, tuples and plain lists elementwise, object-alike and improper lists as the empty list |
| `BridgeProperties.ObjectAlikeElements` | src/duk_erlang.c:69-89 | object-alike are exactly the improper lists and the lists of pairs that start with an atom, element by element |
| `Timers.IntegerReadsBack` | src/duk_erlang.c:95-102 | an integer pushed from Erlang reads as the same C int, an unsigned one as its two's complement |
| `BridgeProperties.EntriesOverride` | src/duk_erlang.c:132-138 | after an object-alike list, each key holds the value of its last entry, and no other key appears |
| `BridgeProperties.ObjectAlikeIsLost` | src/duk_erlang.c:129-139 | the pushed array has no elements, carries the last value of each key, and is sent back as the empty list |
| `Glue.UnrollArray` | src/duk_util.c:54-68 | an array on top is replaced by its elements in order and counted; anything else stays, with count 0 |
| `Glue.UnrollEntries` | src/duk_util.c:59-64 | the loop leaves the values above the spent enumerator, without their keys |
| `Glue.PutFirstPropName` | src/duk_util.c:70-75 | pushes the first property name; an object without properties is itself replaced by the enumerator |
| `Glue.StartWorker` | src/duk_elm.c:96-103 | the module's exports are replaced by the result of calling `worker` of the first export, and nothing else is called or moved; an error escapes exactly when there is no first export |
| `Glue.CallWorker` | src/duk_elm.c:98-103 | the shuffle that keeps the result and drops the two values that led to it |
| `Glue.GetInputPorts` | src/duk_elm.c:16-43 | the first min(capacity, matches) input port names in enumeration order; the stack is restored whenever `ports` is an object, and holds one more value when only the instance is |
| `Glue.CollectInputs` | src/duk_elm.c:27-40 | the loop behind it leaves only the enumerator it was given |
| `Glue.GetOutputPorts` | src/duk_elm.c:45-71 | the same names for output ports; the stack is restored exactly when no property follows the one that fills the capacity, and otherwise keeps `ports` and the enumerator |
| `Glue.CollectOutputs` | src/duk_elm.c:56-68 | the loop behind it stops with a visited pair exactly in that case |
| `Glue.CollectedInputs` | src/duk_elm.c:27-40 | the names collected are those of the first entries, up to the capacity, that are objects with an own `send`, in order, and of no others |
| `Glue.CollectedOutputs` | src/duk_elm.c:56-68 | the same for entries that are objects with an own `subscribe` and an own `unsubscribe` |
| `Ports.Subscribe` | src/erlm.c:87-93 | one port: its `subscribe` is called with a handler carrying the port's name, and the stack restored; an error escapes exactly if there is no function to call or it throws |
| `Ports.SubscribeAll` | src/erlm.c:76-96 | subscribes to the collected ports in order and restores the stack; stops at the first subscription that throws; subscribes to none, and throws, when there are more ports than fit; without a `ports` object subscribes to none and goes on exactly if another `ports` can be read from what the collector leaves on top |
| `Ports.SubscribedOnce` | src/erlm.c:81-94 | if the keys of `ports` differ, subscribing without an error calls the `subscribe` of every output port once, in enumeration order, with a handler carrying its name, and calls nothing else |
| `Ports.PortLimit` | src/erlm.c:78-81 | more than 128 output ports end the program before any subscription; fewer are all subscribed to |
| `Ports.PrintPortsInfo` | src/erlm.c:98-119 | listing the ports leaves the stack as it was, unless there is no `ports` object or there are more output ports than fit, and never changes whether subscribing can go on |
| `Ports.HandleInput` | src/erlm.c:147-153 | survives exactly when the path to `send` can be read and the arguments pushed; if `ports` holds the named port with a function as its own `send`, and the arguments push as an array, exactly that function is called with exactly the elements of the array; arguments that are no array leave `ports` on the stack and call nobody |
| `Ports.InputPortsAnswer` | src/erlm.c:147-149 | every input port collected from `ports` is found again under its name, with the very `send` that made it one, and if that is a function a packet reaches it |
| `Ports.Deliver` | src/erlm.c:150-153 | pushing, spreading, calling and dropping three slots, for arrays and for everything else |
| `Ports.ArrayIffSpreadsOut` | src/duk_erlang.c:112-148 | a term pushes as an array exactly if it is a tuple or a list that is no iolist |
| `Ports.ArgumentsArrive` | src/erlm.c:150-152 | of arguments that push as an array, every one reaches `send` at its place, and nothing else does, exactly if they are no object-alike list |
| `Ports.KeywordArgsVanish` | src/erlm.c:150-152 | `send` gets no arguments exactly for object-alike lists and the empty tuple |
| `Ports.StrandedInstance` | src/erlm.c:147-149 | once `ports` is left on top, a further packet can be delivered exactly if it is addressed to a property of a port that is itself named `ports` |
| `Ports.InputRuns` | src/erlm.c:125-181 | a sequence of packets that the instance takes and `ports` does not survives exactly when every packet but the last spreads out, and restores the stack exactly when all do |
| `Argparse.PrefixCmp` | lib/argparse/argparse.c:20-29 | 0 exactly for a prefix, otherwise the difference at the first unequal character |
| `Argparse.Parser.constructor` | lib/argparse/argparse.c:175-186 | the initial state of a parser |
| `Argparse.Parser.FetchText` | lib/argparse/argparse.c:69-89 | the carried value if there is one, else the next token, which becomes the current one, else none |
| `Argparse.Parser.StoreValue` | lib/argparse/argparse.c:49-95 | variables, carried value, tokens and exits as the pure effect of the option says |
| `Argparse.Parser.GetValue` | lib/argparse/argparse.c:44-103 | the same including the callback and its code |
| `Argparse.Parser.ShortOpt` | lib/argparse/argparse.c:124-134 | the option of the first letter, with the remaining letters carried |
| `Argparse.Parser.LongRest` | lib/argparse/argparse.c:142-164 | what is left behind a long name or its negation |
| `Argparse.Parser.LongOpt` | lib/argparse/argparse.c:136-173 | the first table entry that the token spells takes effect |
| `Argparse.Parser.Cluster` | lib/argparse/argparse.c:216-233 | a cluster has the effect of its letters one after the other, terminates, and leaves nothing carried when it succeeds |
| `Argparse.Parser.KeepToken` | lib/argparse/argparse.c:206-213 | copying a positional token never touches an unread one |
| `Argparse.Parser.OptionStep` | lib/argparse/argparse.c:215-252 | an option token consumes at least itself and at most what is there |
| `Argparse.Parser.ReadLine` | lib/argparse/argparse.c:205-253 | the loop terminates with the compacted prefix, the unread tail and the variables of the pure reading |
| `Argparse.MoveDown` | lib/argparse/argparse.c:256-257 | the overlapping move of the unread tail |
| `Argparse.Parser.Finish` | lib/argparse/argparse.c:255-260 | the move and the NULL store are in bounds |
| `Argparse.Parser.Parse` | lib/argparse/argparse.c:196-261 | for every table and vector: same variables, same outcome, and a vector holding the positional arguments, the unread ones, NULL, and beyond that what it held before |
| `ArgparseProperties.PickedBySpelling` | lib/argparse/argparse.c:145-169 | a long option is picked by exactly its spellings; negation works exactly for negatable options whose name is no prefix of its own negation |
| `ArgparseProperties.FirstLongWins` | lib/argparse/argparse.c:139-173 | the first entry spelled by a token is picked, and none only if no entry is spelled |
| `ArgparseProperties.FirstShortWins` | lib/argparse/argparse.c:127-133 | the same for letters |
| `ArgparseProperties.PositionalsInOrder` | lib/argparse/argparse.c:205-258 | the positional arguments are an order-preserving subsequence of the tokens before the unread tail, which stands verbatim behind `--` or starts at the stopping token |
| `ArgparseProperties.CounterIsSaturatingSum` | lib/argparse/argparse.c:52-61 | a variable of boolean options ends as the saturating sum of its +1 and -1 occurrences in order |
| `ArgparseProperties.SaturatingSumIsBestTail` | lib/argparse/argparse.c:53-60 | that sum is the maximum of the plain total and of the totals of all tails |
| `ArgparseProperties.FlagsReadAlone` | lib/argparse/argparse.c:44-61 | with a table of flags every token means the same wherever it stands, and no value can be missing or malformed |
| `ArgparseProperties.FlagPositionals` | lib/argparse/argparse.c:205-258 | the positional arguments then are the non-options before `--` and everything behind it |
| `ArgparseProperties.CarriedIffStale` | lib/argparse/argparse.c:70-72 | some option takes a value carried over from another token if and only if the line is stale: a long option that wants a value and brings none follows a valueless one given with an equals sign, with only positional tokens and valueless long options between |
| `ArgparseProperties.NothingCarriedOver` | lib/argparse/argparse.c:165-169 | on every line that is not stale, reading is the same as with nothing ever carried from token to token |
| `ArgparseProperties.StaleValue` | lib/argparse/argparse.c:69-80 | on every stale line, an option is stored with the text that an earlier token gave to an option without values |
| `ArgparseProperties.StaleLine` | lib/argparse/argparse.c:70-72 | on `--flag=x --name y` the name becomes x and y a positional argument, where y was meant as the name |
| `ArgparseWriting.LettersNeverNegate` | lib/argparse/argparse.c:127-131 | no letter of a cluster negates its option |
| `ArgparseWriting.FlagClusterStores` | lib/argparse/argparse.c:216-233 | with a table of flags, an accepted cluster consists of letters in the table and stores one action for each, in order, of the first entry with that letter |
| `ArgparseWriting.WrittenLineIsRead` | lib/argparse/argparse.c:196-253 | a line written from words, names, negated names, clusters and values in all their notations is read back as what was written, item by item |
| `ArgparseWriting.WrittenTail` | lib/argparse/argparse.c:239-242 | such a line is accepted, and what is written behind a double dash stays as it is |
| `ArgparseWriting.StoppedLineIsRead` | lib/argparse/argparse.c:205-253 | an unknown name or letter, a missing value, a malformed number or a request for help ends the reading with that reason and with the effect of what stands before |
| `ArgparseWriting.CallbackRefuses` | lib/argparse/argparse.c:96-102 | a callback code of -2 makes the option unknown; any other code changes nothing |
| `ArgparseWriting.LastStoreCounts` | lib/argparse/argparse.c:69-92 | a text or number variable ends with the value stored last |
| `ArgparseWriting.LastBitCounts` | lib/argparse/argparse.c:62-68 | a bit ends set or cleared by the last option whose mask has it |
| `Bits.MaskedBits` | lib/argparse/argparse.c:62-68 | a bit option sets or clears exactly the bits of its mask |
| `ErlmMain.ParseCommandLine` | src/erlm.c:263-285 | main starts the program, complains or exits exactly as the characters of the line say: +1 for a letter or name, -1 for a negated name, summed up without going below zero |
| `ErlmMain.LineReadAlone` | src/erlm.c:265-279 | on erlm's table the stateful reading is the token-by-token one, with both variables as saturating sums |
| `ErlmMain.LineMeans` | src/erlm.c:265-279 | the reading by the table does what the characters of the line say: the steps of both counters, or the reason for the exit |
| `ErlmMain.LaunchIsByCharacters` | src/erlm.c:279-284 | so does the decision of main |
| `ErlmMain.EarlyExits` | src/erlm.c:265-279 | erlm exits early only for help or an unknown option |
| `Bits.OrOfChars` | src/io.c:24 | a shifted char in bitwise or with another one: the sum, unless the other is negative and covers it |
| `PacketIo.DecodedLengthIs` | src/io.c:24 | the length computed by shift and bitwise or is the one meant, or negative exactly if char is signed and a header byte is 128 or more |
| `PacketIo.IoRead` | src/io.c:4-16 | under any short reads: all bytes wanted, 0 at a premature end, or -1 on an error and for a negative length |
| `PacketIo.IoReadPacket2` | src/io.c:18-26 | without errors, exactly what the frame reader makes of the stream, with the position right behind the packet, or right behind the header when the length comes out negative |
| `PacketIo.IoWrite` | src/io.c:28-41 | under any short writes: all bytes, or a prefix and a result of at most 0 |
| `PacketIo.IoWritePacket2` | src/io.c:43-53 | without errors exactly one frame; with errors, a positive result vouches for the payload but not for the header bytes |
| `PacketIo.FrameRoundTrip` | src/io.c:18-53 | a written packet is read back, with the stream right behind it, if and only if it is shorter than 65536 and, for a signed char, both length bytes are below 128 |
| `PacketIo.FrameIsBigEndian` | src/io.c:46-50 | a frame starts with its length, the more significant byte first, and goes on with the payload |
| `PacketIo.StreamRoundTrip` | src/io.c:18-53 | the same for whole sequences of packets |
| `EventMachine.TimerStates` | src/duk_timers.c:19-62 | over every run, which ids are issued, armed, in the callback table or being called, in terms of the history alone |
| `EventMachine.CalledAtMostOnce` | src/duk_timers.c:47-63 | over every run, also with sets and clears inside callbacks, no timer callback is called twice |
| `EventMachine.DeliveryCalls` | src/duk_timers.c:38-63 | a delivery calls exactly the function its timer was set with, exactly when no clear of that id lies between |
| `EventMachine.OrphanedEntries` | src/duk_timers.c:55-62 | the entries that outlive their timer are exactly the uncleared ones of delivered timers that were set with no function |
| `EventMachine.OrphanExists` | src/duk_timers.c:60-62 | such a run |
| `EventMachine.NewTimersSurviveTheCall` | src/duk_timers.c:56-59 | deleting the fired id after the call never removes a timer created during the call |
| `EventMachine.OutputIsSurvivors` | src/events.c:130-148 | over every run, the packets written are, per burst between drains, the first under epoll and the last under kqueue |
| `EventMachine.OutputConserved` | src/erlm.c:67-71 | emitted packets are written, pending or dropped, as multisets |
| `EventMachine.OutputInOrder` | src/erlm.c:183-194 | what is written, also with what is pending, is a subsequence of what was emitted |
| `EventMachine.NothingLost` | src/events.c:241-254 | everything emitted is written or pending, in order, exactly when no burst holds more than one packet |
| `Events.Manager.SendTimeout` | src/events.c:64-108 | a one-shot timer with the delay asked for, due at once under epoll if that is not positive, under a descriptor not in use, or under kqueue (src/events.c:210-224) under the next number |
| `Events.Manager.SubscribeRead` | src/events.c:110-128 | registration of a reader, failing or replacing by backend |
| `Events.Manager.SubscribeWrite` | src/events.c:130-148 | registration of the packet for stdout, failing or replacing by backend |
| `Events.Manager.Unsubscribe` | src/events.c:256-265 | removal by descriptor or by filter |
| `Events.Manager.Wait` | src/events.c:154-172 | delivers an enabled registration and disarms a one-shot one |
| `Timers.SetTimeout` | src/duk_timers.c:5-28 | with two arguments: one timer with the second argument as its delay, its callback under the timer's id, and the id as only result; otherwise an error without effect |
| `Timers.ClearTimeout` | src/duk_timers.c:30-45 | with one argument: exactly the entry of that id is deleted; otherwise an error without effect |
| `Timers.IdRoundTrip` | src/duk_timers.c:25-38 | the id given to JavaScript is read back as the same id |
| `Timers.IntIsTruncated` | src/duk_timers.c:38 | a number is read as a C int cut off towards zero and clamped |
| `Runtime.ReturnedIdIsRead` | src/duk_timers.c:25-38 | the number that setTimeout returns makes clearTimeout clear that id |
| `Runtime.Program.constructor` | src/erlm.c:201-207 | a fresh program has an empty history |
| `Runtime.Program.JsOutputPort` | src/erlm.c:37-74 | an emission of the encoded last argument, exactly if the port's name can be read from this[0]; stack restored |
| `Runtime.LastArgumentIsSent` | src/erlm.c:61 | what is sent pushes as the normal form of the last argument |
| `Runtime.SubscribedHandlerNamesPort` | src/erlm.c:46-51 | a subscribed handler called as the first of an array of handlers finds its port's name |
| `Runtime.Program.JsSetTimeout` | src/duk_timers.c:5-28 | a Set step with the given callback, in a frame of its own |
| `Runtime.Program.JsClearTimeout` | src/duk_timers.c:30-45 | a Clear step, in a frame of its own |
| `Runtime.Program.Await` | src/events.c:154-172 | every event delivered is an armed timer, the pending write or stdin; a timer is a Fire step |
| `Runtime.Program.HandleTimer` | src/duk_timers.c:47-63 | calls the table entry exactly if it is a function; the program survives exactly if the call does not throw, and then that id is deleted and the stack restored; otherwise changes nothing |
| `Runtime.Program.TakePacket` | src/erlm.c:135-139 | takes the next frame from stdin and decodes the buffer it was read into, whatever the buffer held before |
| `Runtime.Program.HandleInputEvent` | src/erlm.c:125-181 | takes the next packet from stdin, delivers it or ends the program, by its path and arguments alone, and keeps the program's state consistent whatever JavaScript does |
| `Runtime.Program.HandleOutput` | src/erlm.c:183-194 | writes the pending packet as a frame and frees the slot |
| `Runtime.Program.Turn` | src/erlm.c:229-239 | one event leads to exactly the steps of its kind: a delivery with its whole call, a drain, or an input; the program ends in it only if the callback throws or the packet cannot be delivered |
| `Runtime.Program.EventLoop` | src/erlm.c:229-240 | every history the loop produces is a run of the state machine, with at most ten deliveries and drains; it waits for an event in every turn, and ends after ten turns or when waiting fails, or before that only with a callback that threw or a packet that could not be delivered |
| `Runtime.Program.Serve` | src/erlm.c:225-239 | subscribes exactly as the ports demand, ending the program exactly if that throws; then stdin is registered for reading and the loop runs |
| `Runtime.Program.Proceed` | src/erlm.c:221-240 | nothing happens with -n; otherwise the ports are subscribed to, stdin listened to and the loop entered, unless subscribing throws; listing the ports changes neither |
| `Runtime.Program.Launch` | src/duk_elm.c:96-103 | the worker of the first export is called, and the start fails exactly if there is no such function or it throws |
| `Runtime.Program.Start` | src/erlm.c:209-240 | the same from the start of the program: it ends with an error exactly if the call of the worker fails, which it does whenever there is no such function, and with an uncaught one exactly when the module exports nothing |
| `Runtime.Program.TimerGuarantees` | src/duk_timers.c:47-63 | the timer theorems, for every history of the program |
| `Runtime.Program.ErlangIsHeard` | src/erlm.c:135-140 | while stdin works, the packets handled over a history are the ones Erlang sent, in order, with the next one at the front of stdin, provided each is an encoded term whose length survives the wire |
| `Runtime.Program.ErlangReads` | src/erlm.c:189-193 | while stdout works, Erlang reads exactly the survivors of the bursts, provided each fits its length field |

## Left out

- The Duktape engine, JavaScript evaluation and erl_interface: only their contracts above; property lookup sees own
  properties, not the prototype chain, and values are trees, so that aliasing between JavaScript objects and changes
  that JavaScript makes to its own objects are not captured.
- PushTerm: `Supported` excludes iolists that contain a NUL byte, because `erl_iolist_to_string` is not part of this
  model beyond its C string, and object-alike keys that an array treats specially (indices, `length`, `__proto__`),
  because assigning these makes an array sparse, throws, or changes its prototype, none of which the model has.
- Numbers are real: NaN and infinities are not modelled.
- Sparse arrays and cyclic objects, on which the translators index past their buffer or do not end.
- HandleInputEvent: decoding is a parameter that always yields a name and supported arguments, because the code does
  not check; what it makes of a buffer without a whole packet is not known.
- Wait: does not model batches of several events; erlm asks for one.
- StartWorker: does not start from buffers or pointers as exports, nor from empty exports with values below them on the
  stack, which erlm never has.
- Start: does not model the evaluation of the JavaScript file; what JavaScript does while the worker starts and while
  ports are subscribed is taken together as one script beforehand.
- SendTimeout: delays are recorded but time does not pass; an armed timer can be delivered in any turn.
- Failing system calls other than `read` and `write`, descriptor exhaustion, `events_send_custom`, `events_free`.
- Memory: allocation, reference counts and leaks.
- `strtol` is a parameter; usage texts, help layout and logging are not modelled; counters do not overflow.
- A callback of an option other than help is known only by its return code.
- File loading and the CommonJS wrapper in src/duk_util.c.
