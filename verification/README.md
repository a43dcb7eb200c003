# Verified model of the AutoLISP plugin

The plugin runs AutoLISP batches as undo transactions inside AutoCAD. This project models the parts of
it that decide what happens: which steps a transaction takes, which job the editor works on, what is
printed for a value and how that text reaches its reader. Each part has a specification, written as
functions on its state, and theorems about it over every input or every run. Where the program works
by changing an object, a class does the same and each method is proved to compute the specification.

| part | modules |
|---|---|
| printing values | `Layout`, `LayoutMachine` (group layout); `Printer`, `PrinterMachine`, `Values`, `Grammar` (event automaton); `Reader`, `RoundTrip` (reading back); `OneLine` (line breaks); `Conses`, `Unfolding`, `Walker` (cons graphs); `Pipeline` |
| writing values | `ValueBridge`, `OutputPort`, `EvalEpoch`, `EvalSuccess` |
| output channel | `Utf8`, `Channel`, `ChannelMachine`; `Sink` is a producer's view of it |
| scanning forms | `Forms`, `FormSpans`, `Scanner` |
| transactions | `Exec`, `ExecRuns`, `ExecMachine` |
| scheduling | `Operations`, `Scheduler`, `SchedulerRuns`, `SchedulerResults`, `SchedulerMachine` |
| the editor's callbacks | `Dispatch`, `DispatchMachine` |
| client and server | `Protocol`, `ServerMachine`, `ClientMachine` |

The specifications have partners that are defined without them. The streaming layout is compared with a
printer that sees the whole tree; printed text with a reader; the walker's stack with the unfolding of
the graph, and its tortoise and hare with the shape of the cycle; the scanner with an automaton that
reads single characters; the transaction with a record of what truly happened to the drawing; the
scheduler with a ledger of completions; the channel with a history of what was accepted.

Some claims one might make are false of the code, and are stated exactly instead. A value reads back as
itself if and only if no atom or list in it is spelled like something else (`RoundTrip.RoundTripExactly`).
A cyclic list shows as many cells as the least multiple of the cycle's length that leads into the cycle,
and so each of its cells only if it is a ring (`Conses.ShownCells`, `Conses.EveryCellShown`). A stopped scheduler can have a job waiting
(`SchedulerResults.StoppedNotEmpty`, `SchedulerResults.StoppedRequeues`). Quarantine can hide behind a
reported success in one case that the editor's answers to executions do not include
(`Operations.QuarantineNeverReassures`). A lease can be mistaken for a newer one exactly after a multiple
of 2^64 - 1 epochs (`ValueBridge.StaleLease`), and then acts on it (`ValueBridge.StaleLeaseActs`).

Run `dafny verify dfyconfig.toml` to check all of it.

## Model

| member | source | states |
|---|---|---|
| Layout.DrainSplit | crates/plugin/src/exec/value/printer_layout.rs:119-189 | Draining a queue, then draining again with more tokens behind what was left, is draining all of it at once: nothing is decided too early. |
| Layout.ChunkIndependence | crates/plugin/src/exec/value/printer_layout.rs:69-92 | What is printed depends on the tokens only through their characters: however texts are cut into pieces, and whether or not empty ones are left out, the output is the same. |
| Layout.PrintIsRender | crates/plugin/src/exec/value/printer_layout.rs:119-244 | For every well-nested document, streaming its tokens prints what an offline printer prints that has the whole tree and breaks a group exactly if its flat width exceeds what is left of 100 columns. |
| Layout.FlatWidthIsMeasure | crates/plugin/src/exec/value/printer_layout.rs:191-214 | The width by which the offline printer decides is the width of the text it would print flat. |
| Layout.LookaheadBounded | crates/plugin/src/exec/value/printer_layout.rs:132-214 | What is held back undecided never takes more than the columns that are left, so never more than 100. |
| Layout.FlatStaysFlat | crates/plugin/src/exec/value/printer_layout.rs:132-214 | A document that is printed flat has no line break of its own, and takes as many columns as its flat text. |
| Layout.UnbrokenGroup | crates/plugin/src/exec/value/printer_layout.rs:132-214 | A group that is not broken is its flat text, and a breakable one begun within 100 columns ends within them. |
| OneLine.ValueClean | crates/plugin/src/exec/value/printer.rs:99-381 | No text of a printable value holds a control character, whatever its strings, symbols, reals and labels hold. |
| OneLine.PrintedGroupsHold | crates/plugin/src/exec/value/printer_layout.rs:132-214 | Wherever a printed value has a group that is not broken, the group is on the one line on which it began, and ends within column 100 if it is breakable and began within it. |
| Layout.DrainGrows | crates/plugin/src/exec/value/printer_layout.rs:132-189 | Output once written is never taken back. |
| LayoutMachine.StreamingLayout.Text | crates/plugin/src/exec/value/printer_layout.rs:69-85 | Text is logged as one token, or none if empty; after it the written text and the tokens held back are those of draining the whole log, or the output was closed after a prefix of that. |
| LayoutMachine.StreamingLayout.BeginGroup | crates/plugin/src/exec/value/printer_layout.rs:56-63 | A group that indents fewer than 100 columns is breakable, a deeper one is forced flat. |
| LayoutMachine.StreamingLayout.EndGroup | crates/plugin/src/exec/value/printer_layout.rs:65-67 | The end of a group is logged and drained. |
| LayoutMachine.StreamingLayout.Line | crates/plugin/src/exec/value/printer_layout.rs:87-92 | A possible line break is logged with its indentation and drained. |
| LayoutMachine.StreamingLayout.DrainPending | crates/plugin/src/exec/value/printer_layout.rs:132-189 | The loop over the queue computes the draining function, or stops where the output was closed. |
| LayoutMachine.StreamingLayout.TakeFront | crates/plugin/src/exec/value/printer_layout.rs:134-188 | One turn of the loop takes the front token as specified, or leaves everything as it was when the front group cannot be decided. |
| LayoutMachine.StreamingLayout.GroupFits | crates/plugin/src/exec/value/printer_layout.rs:191-214 | The scan of the queue gives the verdict of the specification on the front group. |
| LayoutMachine.StreamingLayout.EmitNewline | crates/plugin/src/exec/value/printer_layout.rs:226-244 | A line feed and exactly the indentation are written, in chunks of spaces. |
| LayoutMachine.StreamingLayout.Finish | crates/plugin/src/exec/value/printer_layout.rs:101-117 | A layout that finishes has written exactly what is printed for all tokens at once; it is refused only if a group is open. |
| Printer.EventDepth | crates/plugin/src/exec/value/printer.rs:99-171 | Every accepted event opens groups of the kind due at their depth and closes them, so that as many are open as lists are. |
| Printer.TakeMatches | crates/plugin/src/exec/value/printer_layout.rs:56-67 | A begin opens the kind of group due at its depth, and an end closes the kind that the begin at its depth opened: the two counts never get mixed up. |
| Printer.LayoutFollowsLists | crates/plugin/src/exec/value/printer_layout.rs:132-189 | After any accepted events, complete or not, the layout is inside as many groups as lists are open, but for tokens still held back, and the outermost 50 are the breakable ones. |
| Printer.DeepIsRunning | crates/plugin/src/exec/value/printer.rs:99-171 | Tokens that stay inside their groups are never refused by the layout. |
| Printer.CompletePrints | crates/plugin/src/exec/value/printer.rs:383-389 | Whatever events the printer accepts up to a complete value, the layout can print; nothing is left undecided. |
| Printer.EscapeConcat | crates/plugin/src/exec/value/printer.rs:258-306 | Escaping a string chunk by chunk is escaping the whole. |
| Printer.EscapeSymbolConcat | crates/plugin/src/exec/value/printer.rs:480-498 | Escaping a symbol chunk by chunk is escaping the whole. |
| PrinterMachine.ValuePrinter.BeginList | crates/plugin/src/exec/value/printer.rs:99-127 | The method opens a list, or skips it with a mark at the depth limit; what it hands to the layout, and its new state, are those of the event automaton, or the event is refused exactly when the automaton refuses it. |
| PrinterMachine.ValuePrinter.EndList | crates/plugin/src/exec/value/printer.rs:129-152 | The method closes the innermost list, unless a tail is missing; what it hands to the layout, and its new state, are those of the event automaton, or the event is refused exactly when the automaton refuses it. |
| PrinterMachine.ValuePrinter.Dot | crates/plugin/src/exec/value/printer.rs:154-171 | The method announces the tail of a list that has a value; what it hands to the layout, and its new state, are those of the event automaton, or the event is refused exactly when the automaton refuses it. |
| PrinterMachine.ValuePrinter.Scalar | crates/plugin/src/exec/value/printer.rs:391-399 | The method writes a value that is one text; what it hands to the layout, and its new state, are those of the event automaton, or the event is refused exactly when the automaton refuses it. |
| PrinterMachine.ValuePrinter.BeginSymbol | crates/plugin/src/exec/value/printer.rs:190-199 | The method begins a symbol; what it hands to the layout, and its new state, are those of the event automaton, or the event is refused exactly when the automaton refuses it. |
| PrinterMachine.ValuePrinter.SymbolChunk | crates/plugin/src/exec/value/printer.rs:201-223 | The method takes a part of a symbol: valid characters only, and the separator is written with the first one; what it hands to the layout, and its new state, are those of the event automaton, or the event is refused exactly when the automaton refuses it. |
| PrinterMachine.ValuePrinter.EndSymbol | crates/plugin/src/exec/value/printer.rs:225-241 | The method ends a symbol that is not empty, a number or nil; what it hands to the layout, and its new state, are those of the event automaton, or the event is refused exactly when the automaton refuses it. |
| PrinterMachine.ValuePrinter.BeginString | crates/plugin/src/exec/value/printer.rs:243-256 | The method begins a string; what it hands to the layout, and its new state, are those of the event automaton, or the event is refused exactly when the automaton refuses it. |
| PrinterMachine.ValuePrinter.StringChunk | crates/plugin/src/exec/value/printer.rs:258-306 | The method takes a part of a string, escaped; what it hands to the layout, and its new state, are those of the event automaton, or the event is refused exactly when the automaton refuses it. |
| PrinterMachine.ValuePrinter.EndString | crates/plugin/src/exec/value/printer.rs:308-323 | The method ends a string; what it hands to the layout, and its new state, are those of the event automaton, or the event is refused exactly when the automaton refuses it. |
| PrinterMachine.ValuePrinter.Entity | crates/plugin/src/exec/value/printer.rs:325-346 | The method writes an entity by its upper-case handle, or without it; what it hands to the layout, and its new state, are those of the event automaton, or the event is refused exactly when the automaton refuses it. |
| PrinterMachine.ValuePrinter.Opaque | crates/plugin/src/exec/value/printer.rs:348-381 | The method writes an opaque value with its label, if that is printable; what it hands to the layout, and its new state, are those of the event automaton, or the event is refused exactly when the automaton refuses it. |
| PrinterMachine.ValuePrinter.Finish | crates/plugin/src/exec/value/printer.rs:383-389 | A finished printer has written what is printed for all it received; it is refused exactly if something is open. |
| PrinterMachine.ValuePrinter.AppendBounded | crates/plugin/src/exec/value/printer.rs:470-478 | No text is lost or reordered, what is written out fits one chunk, and the buffer that comes back fits one unless it is the new text alone. |
| PrinterMachine.ValuePrinter.WriteSymbolChunk | crates/plugin/src/exec/value/printer.rs:480-498 | The loop over runs between backslashes writes the escaped text, however the buffer cuts it. |
| PrinterMachine.ValuePrinter.WriteStringChunk | crates/plugin/src/exec/value/printer.rs:258-306 | The loop over the characters writes the escaped text, however the buffer cuts it. |
| PrinterMachine.ValuePrinter.BeforeValueMark | crates/plugin/src/exec/value/printer.rs:419-443 | The separator before a value and the new expectation of its list are those of the automaton. |
| PrinterMachine.ValuePrinter.BeforeSymbolMark | crates/plugin/src/exec/value/printer.rs:445-452 | A symbol that comes first in its list stays on the line of the parenthesis. |
| Values.ValuePrints | crates/plugin/src/exec/value/printer.rs:99-346 | The events of a value are accepted exactly if the value is printable, and then give the tokens of its document, in any state that may receive a value. |
| Values.ValueNested | crates/plugin/src/exec/value/printer.rs:99-152 | The document of every value is well nested: inside a forced-flat group all groups are forced flat. |
| Values.PrintsDocument | crates/plugin/src/exec/value/printer.rs:99-389 | A printable value on its own is printed as its document; any other is refused. |
| RoundTrip.ValueReads | crates/plugin/src/exec/value/printer_fixtures.rs:181-383 | Reading what was rendered for a printable value, in any layout and before any delimiter, gives the value back exactly if it has a text of its own. |
| RoundTrip.ItemsRead | crates/plugin/src/exec/value/printer_fixtures.rs:205-239 | The same for the rest of a list, with its dot and its closing parenthesis. |
| RoundTrip.SymbolReads | crates/plugin/src/exec/value/printer_fixtures.rs:470-496 | A printed symbol reads back as itself exactly if it is not spelled like the truth value or an opaque value. |
| RoundTrip.StringRead | crates/plugin/src/exec/value/printer_fixtures.rs:259-306 | An escaped string reads back as itself, whatever characters it holds. |
| RoundTrip.RoundTripExactly | crates/plugin/src/exec/value/printer_fixtures.rs:99-146 | At every width and for every chunking, a value is printed and reads back as itself if and only if it is printable and has a text of its own. |
| Conses.MeetingPoints | crates/plugin/lisp/core/print.lsp:152-214 | On a list that runs into a cycle, tortoise and hare are together after a number of steps exactly if it is a multiple of the length of the cycle and leads into it. |
| Conses.FindLasso | crates/plugin/lisp/core/print.lsp:152-214 | A list that has not ended after as many cells as there are runs into a cycle. |
| Conses.Shown | crates/plugin/lisp/core/print.lsp:152-214 | The walker stops at a list after at most one cell more than the graph lists, and not earlier than it must. |
| Conses.ShownCells | crates/plugin/lisp/core/print.lsp:173-214 | A list is cut short exactly if it has no end; then the cells shown are the least positive multiple of the cycle length that leads into the cycle. |
| Conses.EveryCellShown | crates/plugin/lisp/core/print.lsp:173-214 | An endless list has each of its cells shown exactly if its first cell is on the cycle; otherwise it is cut before the cycle was gone round. |
| Unfolding.ListUnfolds | crates/plugin/lisp/core/print.lsp:130-214 | A list shows each of its first cells in order, ends with the mark of a cycle exactly if it has no end, and with a parenthesis exactly if it ends in nil. |
| Unfolding.UnfoldPrints | crates/plugin/lisp/core/print.lsp:130-253 | Lists never nest deeper than 4096, and of a whole graph the printer can refuse only a real without a text or the name of a symbol: never a list, a dot or a mark. |
| Unfolding.ChunksFit | crates/plugin/lisp/core/print.lsp:54-79 | The parts of a text are never too long for the printer, and together are the text. |
| Walker.Walk | crates/plugin/lisp/core/print.lsp:239-253 | The loop over the work stack ends on every graph, cyclic ones included, having emitted exactly the events of the unfolded value, or having met a failure of the port. |
| Walker.EmitItem | crates/plugin/lisp/core/print.lsp:130-150 | What a task says and the tasks it leaves owe together what the task owed, in fewer steps. |
| Walker.EmitTail | crates/plugin/lisp/core/print.lsp:152-214 | The same for the rest of a list, with the tortoise and the hare in the task. |
| Walker.EmitText | crates/plugin/lisp/core/print.lsp:54-79 | A text is emitted with its begin, its parts in order and its end. |
| Walker.PrintValue | crates/plugin/lisp/core/print.lsp:239-253 | On every graph printing ends; if nothing was out of place the output has grown by the rendered document of the unfolded value and a line feed; a value is out of place only because of an atom without a text. |
| Pipeline.ObjectReadsBack | crates/plugin/lisp/core/print.lsp:1-253 | Whatever the graph, what is printed for an object reads back as the unfolded value exactly if its atoms have texts of their own and no list in it is spelled like an entity. |
| ValueBridge.ExecIo.BeginValueOutput | crates/plugin/src/exec/io.rs:47-61 | A new epoch has a new generation and nothing claimed; one that was left open leaves a failure. |
| ValueBridge.ExecIo.AcquireValueOutput | crates/plugin/src/exec/io.rs:63-88 | A lease is granted exactly if the epoch is of that kind, unclaimed and without failure. |
| ValueBridge.ExecIo.CloseValueOutput | crates/plugin/src/exec/io.rs:90-117 | Closing reports the first failure: of the lease, a lease still active, or a value that nobody wrote; it leaves none behind. |
| ValueBridge.ExecIo.ReleaseValueOutput | crates/plugin/src/exec/io.rs:130-150 | A release from another epoch changes nothing; otherwise the first failure is kept. |
| ValueBridge.StaleLease | crates/plugin/src/exec/io.rs:47-150 | A lease from an earlier epoch is open exactly if a multiple of 2^64 - 1 epochs began since and a lease of its kind is in use without failure; its release does something exactly after such a multiple, in an epoch of its kind, if there is a lease to end or a first failure to note. |
| ValueBridge.StaleLeaseActs | crates/plugin/src/exec/io.rs:47-150 | It does happen: a run of as many epochs after which the lease of the first one is open without having been granted, and abandoning it fails the epoch of another lease. |
| ValueBridge.CleanEpoch | crates/plugin/src/exec/io.rs:63-150 | An evaluation epoch that closes without failure granted its lease, had it released without failure, and the lease was open exactly between. |
| OutputPort.NativeOutputPort.constructor | crates/plugin/src/exec/value/port.rs:65-74 | A new port has written nothing and starts with what it finds of the output. |
| OutputPort.NativeOutputPort.Write | crates/plugin/src/exec/value/port.rs:80-104 | Each write is a step of the port automaton; as long as nothing is wrong the output holds exactly the complete lines and values, and of an open value what the layout has decided. |
| OutputPort.NativeOutputPort.BeginAValue | crates/plugin/src/exec/value/port.rs:138-150 | A value begins only where none is open, and in an evaluation only once. |
| OutputPort.NativeOutputPort.EndAValue | crates/plugin/src/exec/value/port.rs:152-168 | A value ends with its whole text written exactly if its events are one complete value. |
| OutputPort.NativeOutputPort.PrintLine | crates/plugin/src/exec/value/port.rs:170-184 | A line is written only by a form, between values, without control characters and within its bound. |
| OutputPort.NativeOutputPort.ShowEvent | crates/plugin/src/exec/value/port.rs:186-220 | An event is shown exactly if the printer accepts it after those before. |
| OutputPort.NativeOutputPort.Finish | crates/plugin/src/exec/value/port.rs:110-136 | The lease ends with the failure that the whole of what was written amounts to. |
| OutputPort.NativeOutputPort.Drop | crates/plugin/src/exec/value/port.rs:237-243 | A port dropped unfinished abandons its epoch. |
| EvalEpoch.CleanCloseWroteOneValue | crates/plugin/src/exec/value/port.rs:80-136 | In every order in which bridge and port may be used: if the epoch of an evaluation closes without failure, exactly one complete value was written, or the reader had gone, or output was stopped. |
| Grammar.ParseItems | crates/plugin/src/exec/value/printer.rs:99-171 | Whatever events the printer accepts up to the end of a list are the events of items: a dot only before one last value. |
| Grammar.ExactlyValues | crates/plugin/src/exec/value/printer.rs:99-443 | Events of which nothing is skipped make one complete value for the printer if and only if they are the events of a printable value. |
| EvalSuccess.SuccessWroteOneValue | crates/plugin/src/exec/state.rs:476-504 | In every joint run of the execution, its bridge and its port: an evaluation that has succeeded has committed, and in the epoch opened after that exactly one complete value was written, unless the reader had gone or output was stopped. |
| EvalSuccess.JointKept | crates/plugin/src/exec/state.rs:476-504 | Every step of the execution, of its port or of anyone else on the bridge keeps that the epoch of the value is the one that the execution closes. |
| FormSpans.ListSpan | crates/lisp/src/lib.rs:183-209 | A list is exactly the shortest text whose parentheses outside strings and comments balance; without one the scan fails, for the reason of what was left open. |
| FormSpans.StringSpan | crates/lisp/src/lib.rs:211-241 | A string ends exactly at the first place where the automaton leaves it, whatever escapes and line ends it holds; it has no end exactly if the automaton never leaves it. |
| FormSpans.SkipsTrivia | crates/lisp/src/lib.rs:262-306 | Only white space and comments are skipped, and skipping stops only where neither goes on; it fails only inside a block comment without an end. |
| FormSpans.FormsInOrder | crates/lisp/src/lib.rs:102-136 | Every form advances, forms follow one another with only trivia between, and the forms after one are those found from its end. |
| FormSpans.OnlyTriviaAfter | crates/lisp/src/lib.rs:102-136 | After the last form there is only trivia. |
| FormSpans.FormAlone | crates/lisp/src/lib.rs:156-260 | The text of a form, scanned on its own, is that one form. |
| Scanner.AdvanceRecounts | crates/lisp/src/lib.rs:308-331 | Moving on keeps byte, line and column those of a recount of the text before, a carriage return with its line feed being one break. |
| Scanner.Cursor.Step | crates/lisp/src/lib.rs:308-331 | The cursor moves one character on, or over a carriage return with its line feed, and its counts stay those of a recount. |
| Scanner.Cursor.SkipComment | crates/lisp/src/lib.rs:276-306 | The loops end where the comment does, or report where it began. |
| Scanner.Cursor.SkipTrivia | crates/lisp/src/lib.rs:262-274 | The loops end where the trivia does. |
| Scanner.Cursor.ScanString | crates/lisp/src/lib.rs:211-241 | The loop ends behind the closing quote, or reports where the string began. |
| Scanner.Cursor.ScanList | crates/lisp/src/lib.rs:183-209 | The loop ends behind the closing parenthesis, or reports where the list, string or comment began. |
| Scanner.Cursor.ScanAtom | crates/lisp/src/lib.rs:243-260 | An atom ends before a delimiter, or before a period inside it unless it is a decimal number. |
| Scanner.Cursor.ScanForm | crates/lisp/src/lib.rs:156-181 | A form ends where the specification says, quotes before it included; a quote without a form is reported where it stands. |
| Scanner.DecimalToken | crates/lisp/src/lib.rs:358-396 | The cursor loop accepts exactly digits with a point, perhaps more digits and an exponent. |
| Scanner.FormScanner.Next | crates/lisp/src/lib.rs:102-136 | Each call reports the first of the forms that are left, or the error, with byte span, line and column, and leaves the rest. |
| Scanner.FormScanner.Position | crates/lisp/src/lib.rs:73-80 | The position saved is that of the cursor, in bytes, lines and columns. |
| Scanner.Resume | crates/lisp/src/lib.rs:82-96 | Resuming fails exactly outside the source or inside a character; from a saved position it leaves exactly the forms that were left. |
| Scanner.Validate | crates/lisp/src/lib.rs:43-47 | The count is that of all forms, or the error is the first one. |
| ExecMachine.New | crates/plugin/src/exec/state.rs:67-130 | A source is accepted exactly if it is small enough without its mark, UTF-8, without NUL, scannable, and for an evaluation one form; an empty one is already a success. |
| ExecMachine.Execution.RequestCancel | crates/plugin/src/exec/state.rs:175-203 | Cancellation is accepted exactly before the commit and without another reason to unwind, and again once accepted. |
| ExecMachine.Execution.ExpireBeforeStart | crates/plugin/src/exec/state.rs:205-240 | Expiry takes effect exactly before a form was handed off, and closes an open undo group. |
| ExecMachine.Execution.CancelBeforeStart | crates/plugin/src/exec/state.rs:242-251 | A waiting execution is cancelled exactly before its undo group was begun. |
| ExecMachine.Execution.TakeStep | crates/plugin/src/exec/state.rs:253-375 | The loop settles what needs no step and issues the step that the phase calls for. |
| ExecMachine.Execution.ScanNext | crates/plugin/src/exec/state.rs:279-336 | Resuming from the saved position and scanning the next form cannot fail. |
| ExecMachine.Execution.CompleteStep | crates/plugin/src/exec/state.rs:377-581 | Every result moves the phases as specified; a result that is not awaited changes nothing. |
| ExecMachine.Execution.Abandon | crates/plugin/src/exec/state.rs:626-676 | Whatever the phase, the outcome becomes an unknown failure, and a finished execution stays finished. |
| ExecMachine.Execution.RecordBridgeFinalizationFailure | crates/plugin/src/exec/state.rs:616-624 | An outcome, if there is one, becomes an unknown failure. |
| ExecMachine.Execution.TakeOutcome | crates/plugin/src/exec/state.rs:136-138 | The outcome can be taken once. |
| ExecRuns.InvInitially | crates/plugin/src/exec/state.rs:67-130 | An execution that was accepted starts with nothing done and all its forms before it. |
| ExecRuns.TransactionSafety | crates/plugin/src/exec/state.rs:175-676 | However steps, cancellation, expiry, abandonment and bridge use are interleaved: every outcome says only what happened to the drawing; the next step is one the transaction may take; the forms handed off are a prefix of those validated, and scanning never fails again. |
| ExecRuns.CancelIsFinal | crates/plugin/src/exec/state.rs:175-203 | After an accepted cancellation no form is evaluated and nothing is committed, whatever happens. |
| ExecRuns.SuccessReleasedItsValue | crates/plugin/src/exec/state.rs:476-504 | An evaluation succeeds only after its commit, with the lease of its value granted and released without failure. |
| ExecRuns.TakeKeeps | crates/plugin/src/exec/state.rs:253-375 | Taking a step keeps the invariant, and the step is an allowed one: forms after begin and before commit, rollback only of forms and never after a commit, closing an empty group only without forms. |
| ExecRuns.CompleteKeeps | crates/plugin/src/exec/state.rs:377-581 | Completing a step with any result keeps the invariant between the phases and what truly happened. |
| ExecRuns.StepsBounded | crates/plugin/src/exec/state.rs:253-375 | In every run the steps issued, and those that still can be, never exceed the forms by more than five. |
| ExecRuns.DoneInTime | crates/plugin/src/exec/state.rs:253-581 | Taking and completing steps in turn, an execution of n forms is done after at most n + 5 steps, however they turn out. |
| Utf8.CutChars | crates/plugin/src/exec/output.rs:245-253 | Text of whole characters, cut at a boundary, is two texts of whole characters. |
| Utf8.PrefixIsLong | crates/plugin/src/exec/output.rs:245-253 | The longest prefix within a limit is the whole text or ends within three bytes of the limit; it is empty only if the first character does not fit. |
| Utf8.CutText | crates/plugin/src/exec/output.rs:245-253 | Cutting the bytes of a text at a boundary cuts the text between two characters. |
| Channel.PublishKeeps | crates/plugin/src/exec/output.rs:255-273 | Publishing keeps the text in order and leaves every chunk but the last almost full. |
| Channel.SectionKeeps | crates/plugin/src/exec/output.rs:80-117 | One section of a producer appends a nonempty part that ends between characters, or finds the channel closed, or waits, and then there is a chunk for the reader. |
| Channel.PopUnblocks | crates/plugin/src/exec/output.rs:109-115 | A producer that had to wait has room once the reader has taken one chunk. |
| Channel.RunConserves | crates/plugin/src/exec/output.rs:75-237 | In every run of all parties: what was delivered, is ready and is pending is what was accepted, until a stop or disconnection discards; the count is exact and bounded, chunks are bounded, whole characters and almost full but the last; the channel never becomes less closed. |
| Channel.NoLostSpace | crates/plugin/src/exec/output.rs:122-237 | A producer without room finds room or an end only after a section that wakes producers. |
| Channel.NoLostData | crates/plugin/src/exec/output.rs:80-237 | A reader that must wait finds a chunk or an end only after a section that wakes it. |
| ChannelMachine.FindPrefix | crates/plugin/src/exec/output.rs:245-253 | The loop from the end finds the longest prefix of whole characters. |
| ChannelMachine.OutputChannel.PublishPending | crates/plugin/src/exec/output.rs:255-273 | The last ready chunk is filled up, and what does not fit becomes the next. |
| ChannelMachine.OutputChannel.EmitPart | crates/plugin/src/exec/output.rs:81-117 | A locked section does as specified, and the history of accepted text with it. |
| ChannelMachine.OutputChannel.Emit | crates/plugin/src/exec/output.rs:75-120 | The text is accepted from its beginning on, in parts that end between characters, all of it if the result is to go on; with no other producer it is accepted in one piece; a producer is still waiting only if there is a chunk to read. |
| ChannelMachine.OutputChannel.FlushAll | crates/plugin/src/exec/output.rs:122-133 | What is pending becomes ready, if the channel is open. |
| ChannelMachine.OutputChannel.Cancel | crates/plugin/src/exec/output.rs:135-146 | Cancellation publishes what is pending and outranks finishing. |
| ChannelMachine.OutputChannel.FinishAll | crates/plugin/src/exec/output.rs:148-156 | Finishing publishes what is pending and never replaces another end. |
| ChannelMachine.OutputChannel.StopAll | crates/plugin/src/exec/output.rs:158-168 | Stopping discards the queue and outranks all but disconnection. |
| ChannelMachine.OutputChannel.DropLastProducer | crates/plugin/src/exec/output.rs:181-201 | The loss of the last producer stops an open channel. |
| ChannelMachine.OutputChannel.Pop | crates/plugin/src/exec/output.rs:204-225 | The reader gets the chunks in order, then the end. |
| ChannelMachine.OutputChannel.DisconnectReader | crates/plugin/src/exec/output.rs:227-236 | The loss of the reader discards the queue and outranks everything. |
| ChannelMachine.EmitIsSink | crates/plugin/src/exec/output.rs:75-120 | For a lone producer the channel is a text that each call extends by a prefix of what is emitted, or by all of it. |
| SchedulerMachine.MutationScheduler.ExecutionUsage | crates/plugin/src/scheduler/queue.rs:189-197 | Counts the executions and sums their sources, the active one included. |
| SchedulerMachine.MutationScheduler.ClaimWake | crates/plugin/src/scheduler/queue.rs:203-216 | A wake is claimed exactly if one is needed and none is on its way. |
| SchedulerMachine.MutationScheduler.Admit | crates/plugin/src/scheduler/queue.rs:343-409 | Admission of an execution checks state, capacity and sources in order, answers one that is already over, and queues the rest. |
| SchedulerMachine.MutationScheduler.SubmitOperation | crates/plugin/src/scheduler/queue.rs:411-452 | An operation is refused, answered at once if the scheduler is idle, or queued. |
| SchedulerMachine.MutationScheduler.DueTimers | crates/plugin/src/scheduler/queue.rs:289-317 | Every waiting job whose time is over ends, in order; the others stay, in order; a head to be retried is ready again; the result says whether a wake was claimed. |
| SchedulerMachine.MutationScheduler.RemoveDue | crates/plugin/src/scheduler/queue.rs:294-308 | The removing loop computes those that stay and those that end. |
| SchedulerMachine.MutationScheduler.MayBeReady | crates/plugin/src/scheduler/queue.rs:319-325 | A deferred head is ready again, with its delay reset; the result says whether a wake was claimed. |
| SchedulerMachine.MutationScheduler.StopAll | crates/plugin/src/scheduler/queue.rs:327-341 | All waiting jobs end, and the active execution is asked to cancel. |
| SchedulerMachine.MutationScheduler.TakeAction | crates/plugin/src/scheduler/queue.rs:454-490 | The head is handed to the editor, answered, timed out or left alone, as specified. |
| SchedulerMachine.MutationScheduler.CompleteAction | crates/plugin/src/scheduler/queue.rs:492-544 | The active job ends with its result, is put back if the editor was not ready and it may wait, or takes all waiting jobs with it into quarantine. |
| SchedulerMachine.MutationScheduler.TakeExecStep | crates/plugin/src/scheduler/queue.rs:218-229 | The active execution expires if its time is over, then gives its step. |
| SchedulerMachine.MutationScheduler.CompleteExecStep | crates/plugin/src/scheduler/queue.rs:255-264 | Only the active execution can complete a step; the result says whether the step was awaited. |
| SchedulerMachine.MutationScheduler.AbandonExec | crates/plugin/src/scheduler/queue.rs:266-275 | Only the active execution can be abandoned; the result says whether it was. |
| SchedulerMachine.MutationScheduler.RecordFrame | crates/plugin/src/scheduler/queue.rs:885-898 | Only the active capture takes a frame. |
| SchedulerMachine.MutationScheduler.CancelExec | crates/plugin/src/scheduler/queue.rs:546-572 | An active execution is asked to cancel, a waiting one ends cancelled if it still can. |
| SchedulerMachine.MutationScheduler.WakeHasFailed | crates/plugin/src/scheduler/queue.rs:574-597 | After a failed wake the head is deferred, or ends if its time is over; the result says whether another wake was claimed. |
| SchedulerRuns.WakesKept | crates/plugin/src/scheduler/queue.rs:203-216 | Every section keeps that work nobody does is awaited: by a wake, a retry or a claim the host owes. |
| SchedulerRuns.AllParts | crates/plugin/src/scheduler/queue.rs:289-597 | Every section but admission only lets jobs stay, in their order, or completes them. |
| SchedulerRuns.ShapeKept | crates/plugin/src/scheduler/queue.rs:343-597 | Every section keeps the order of ids, the bounds of 32 jobs, 8 executions and 32 MiB, and the ledger of completions. |
| SchedulerRuns.TargetKept | crates/plugin/src/scheduler/operation.rs:67-246 | Every section keeps that the editor was given the drawing that the active job is about. |
| SchedulerRuns.QueueKept | crates/plugin/src/scheduler/queue.rs:343-597 | Every section keeps, of the queue alone, the order of ids, the bounds and the shape of the waits. |
| SchedulerRuns.WaitsKept | crates/plugin/src/scheduler/queue.rs:277-597 | Every section keeps that only the head can be anything but queued, nothing while a job is active, and nothing waits in quarantine. |
| SchedulerRuns.JobsKept | crates/plugin/src/scheduler/queue.rs:1083-1154 | Every section keeps the times of each job within bounds: deadlines below 120 s after admission, retries no later than the deadline, delays between 50 and 500 ms. |
| SchedulerRuns.CreatedIsSound | crates/plugin/src/exec/state.rs:67-130 | An execution that was accepted has a form to come, or is over. |
| SchedulerRuns.WaitingExpires | crates/plugin/src/exec/state.rs:156-240 | An execution that waits to start can be expired, and then waits no longer. |
| SchedulerResults.ExactlyOnce | crates/plugin/src/scheduler/queue.rs:343-597 | In every run every id given out is waiting, active or completed, exactly once. |
| SchedulerResults.InTurn | crates/plugin/src/scheduler/queue.rs:189-201 | In every run no job overtakes another, only the first is not merely queued, and the three bounds hold. |
| SchedulerResults.NoWakeLost | crates/plugin/src/scheduler/queue.rs:203-216 | Until the first stop, with jobs waiting and none active, a wake is claimed, or the head is deferred to a time the timers know, or the host owes a claim. |
| SchedulerResults.TimersSettle | crates/plugin/src/scheduler/queue.rs:277-317 | After timers were processed the next deadline lies ahead: they cannot spin. |
| SchedulerResults.IssuedInTime | crates/plugin/src/scheduler/queue.rs:454-490 | The editor is given a job only within 120 s of its admission. |
| SchedulerResults.FirstFormInTime | crates/plugin/src/scheduler/queue.rs:218-229 | A first form is handed to the editor only within 120 s of the admission of its execution. |
| SchedulerResults.RetriesInTime | crates/plugin/src/scheduler/queue.rs:1098-1153 | A job put back is retried after 50 to 500 ms and not later than its deadline. |
| SchedulerResults.QuarantineIsFinal | crates/plugin/src/scheduler/queue.rs:411-463 | In quarantine nothing waits, is active, is issued or completed, ever. |
| SchedulerResults.StoppedRequeues | crates/plugin/src/scheduler/queue.rs:508-520 | After a stop a job comes back exactly if the editor was not ready for the active job, which may still wait. |
| SchedulerResults.StoppedNotEmpty | crates/plugin/src/scheduler/queue.rs:508-520 | A run in which a stopped scheduler has a job waiting. |
| SchedulerResults.NoStaleSuccess | crates/plugin/src/scheduler/operation.rs:67-246 | In every run a switch, save, capture, undo or redo that is completed with success was carried out on the drawing that had the identifier when the editor was given the job, and has it still. |
| Operations.UnprovedIsQuarantined | crates/plugin/src/scheduler/native.rs:544-577 | What the editor may have left behind is always quarantined, and a quarantining answer is one that is never retried. |
| Operations.QuarantineNeverReassures | crates/plugin/src/scheduler/native.rs:425-474 | An execution that ends in quarantine reports success or cancellation exactly if the answer was that a capture could not be undone and nothing else was unproved. |
| DispatchMachine.ObjectArxBridge.ScheduleDocumentContextFinalizer | crates/plugin/native/host.cpp:2345-2378 | The finalizer is scheduled, or the job is completed at once and the callback given back. |
| DispatchMachine.ObjectArxBridge.ScheduleExecutionDispatchFinalizer | crates/plugin/native/host.cpp:2544-2553 | Only a driver is finalized as one. |
| DispatchMachine.ObjectArxBridge.FailExecutionDriver | crates/plugin/native/host.cpp:2453-2467 | A driver that is not yet finalizing fails into its finalizer. |
| DispatchMachine.ObjectArxBridge.RecoverCancelledExecutionDriver | crates/plugin/native/host.cpp:2469-2542 | A cancelled driver is sent again from the start, or finalized if its context is lost. |
| DispatchMachine.ObjectArxBridge.QueuedExecutionDriverStarted | crates/plugin/native/host.cpp:2407-2451 | The driver starts with its own expression; nested starts are counted. |
| DispatchMachine.ObjectArxBridge.QueuedExecutionDriverTerminated | crates/plugin/native/host.cpp:2555-2593 | Nested ends are counted; the last one finalizes, fails, or is left to the callback that is running. |
| DispatchMachine.ObjectArxBridge.EnterAdvance | crates/plugin/native/host.cpp:2622-2648 | Only a running driver may advance. |
| DispatchMachine.ObjectArxBridge.FinishAdvanceCallback | crates/plugin/native/host.cpp:2595-2620 | The end of the callback finalizes, fails or lets the driver go on. |
| DispatchMachine.ObjectArxBridge.QueuedHistoryCommandTerminated | crates/plugin/native/host.cpp:2380-2405 | A history command that never ran is finalized. |
| DispatchMachine.ObjectArxBridge.ActionTargetWillBeDestroyed | crates/plugin/native/host.cpp:3254-3270 | A dispatch whose document goes away before it runs is finalized. |
| DispatchMachine.ObjectArxBridge.EnterHistoryCommand | crates/plugin/native/host.cpp:2935-2948 | A history command runs once. |
| DispatchMachine.ObjectArxBridge.FinalizeDocumentContextDispatch | crates/plugin/native/host.cpp:3010-3056 | The finalizer completes the job, removes the dispatch and gives the callback back. |
| DispatchMachine.ObjectArxBridge.WakeNativeActions | crates/plugin/native/host.cpp:3298-3317 | A wake is counted exactly while it is on its way. |
| DispatchMachine.ObjectArxBridge.ProcessNextAction | crates/plugin/native/host.cpp:1380-1467 | A wake completes its action, or leaves it as the live dispatch. |
| DispatchMachine.ObjectArxBridge.QueueDocumentContextDispatch | crates/plugin/native/host.cpp:2184-2343 | A dispatch begins only where none is live and the command could be sent. |
| Dispatch.CallbacksCounted | crates/plugin/native/host.cpp:2294-2378 | Under every order of callbacks the outstanding count is that of wakes not yet run and the live dispatch; every action is completed once unless it is the live dispatch, and its finalizer scheduled at most once. |
| Dispatch.HandleKeeps | crates/plugin/native/host.cpp:2407-2620 | Every callback keeps the count and the ledger. |
| ClientMachine.InterruptState.NoteInterrupt | crates/cli/src/commands/exec/interrupt.rs:112-131 | The first interrupt asks to cancel, the second to detach; others change nothing. |
| ClientMachine.InterruptState.RecordAcknowledgement | crates/cli/src/commands/exec/interrupt.rs:157-210 | An answer is recorded once, also before its interrupt was noted; after a detach it lets the client leave. |
| ClientMachine.ResponseSession.Run | crates/cli/src/commands/exec/mod.rs:149-304 | The loop takes events and interrupts as specified until one of them ends the session. |
| ClientMachine.ResponseSession.Receive | crates/cli/src/commands/exec/mod.rs:180-302 | Each event is accepted, or found invalid, as specified. |
| ServerMachine.ReadControls | crates/plugin/src/rpc/exec.rs:243-304 | The loop answers only the first cancellation and stops at the first trouble. |
| ServerMachine.OneAnswer | crates/plugin/src/rpc/exec.rs:243-304 | Whatever the client sends, at most one cancellation is answered. |
| ServerMachine.ExecuteResponseState.NextEvent | crates/plugin/src/rpc/exec.rs:145-235 | The loop gives the next event of its phase, goes on where the output or the control reader has ended, and stops at trouble. |
| ServerMachine.StreamWellFormed | crates/plugin/src/rpc/exec.rs:145-235 | Whatever the loop hears, with at most one answer among it, its events are accepted first, at most one acknowledgement, finished last. |
| Protocol.Grows | crates/plugin/src/rpc/exec.rs:145-235 | Each event that the server sends extends its stream to one that is well formed. |
| Protocol.NextKeeps | crates/plugin/src/rpc/exec.rs:145-304 | Every step of server, reader, wires, client and interrupts keeps the stream one that the client understands. |
| Protocol.NeverInvalid | crates/cli/src/commands/exec/mod.rs:149-304 | However events, interrupts and failures are interleaved, the client never finds the responses of the server invalid. |

## Left out

- Widths: the display width of a text is the sum of a width for each character, chosen freely; the width tables of the Unicode library are not modelled, and they need not be additive.
- Reals: a real is given as the text it is printed as, or as having none; rounding and trimming are not modelled.
- Memory limits: the limit error for memory that cannot be reserved, and saturating arithmetic on counters that cannot grow that far, are not modelled.
- Reader: the fixture reader is modelled as functions on the remaining text, not as a parser object with a byte cursor; its messages and its own chunked replay of fixtures are not modelled.
- Positions: the scanner's cursor counts characters and keeps the byte offset beside them; slicing by byte offsets is not modelled.
- Scanner.Resume: finds the character at a byte offset by counting; the program asks the string library for the boundary.
- ValueBridge.StaleLease: leases are numbered by generations as the program does; that a lease object is dropped at most once is taken from the language.
- ChannelMachine.OutputChannel.Emit: what other threads do while the lock is free is a list given to the method; fairness of locks and condition variables is not modelled, and sections notify as specified beside the model.
- Sources: whether bytes are UTF-8 is given with the source; decoding is not modelled.
- Messages: texts of failures and diagnostics, and their bounds, are not modelled.
- Operations: what the file system says of a path, and the registry of drawings, are inputs; validation of captured frames is reduced to a frame that was recorded.
- Reservations: the atomic counts of live execution streams and of the single capture are not modelled.
- SchedulerResults.NoWakeLost: covers runs up to the first stop, since starting again claims no wake; the host's claim after an action is the debt that the model records, not a call.
- SchedulerResults.TimersSettle: speaks of the deadlines the scheduler computes; a submission does not rearm the driver that sleeps on them.
- Not-ready answers: that the editor refuses an execution as not ready only before its first step is taken from the host and not needed by any theorem here.
- Dispatch: AutoCAD calls, undo commands and the handling of AutoLISP symbols within a callback are free choices of the editor; what a callback does to a dispatch that has meanwhile ended is nothing.
- Protocol: connection set-up, time limits and signals are not modelled; what a loop finds ready, and in which order, is given to it.
- Screenshots, drawing identifiers, paths, process discovery and the command line are not part of this model.
