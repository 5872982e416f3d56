# Transform toy: a Dafny model

This project models the logic of a 2D canvas-transform teaching toy:

- **The step-interpolation engine of `transformToy.js`.**
  - `doTransform` renders a list of canvas commands at a real progress value. It blends each geometric command from the identity towards its full effect.
  - It paints a fill only once the command has started, and keeps its own save/restore stack of transforms.
  - It writes a pseudocode trace whose lines are highlighted by a red ramp around the play head.
- **The command parser of `transformToy.js`.** `parseCommand` and `parseAllCommands` read the free-text list, one command per line.
- **The reverse-direction switch of `transformToy.js`.** `hideDirTog` disables it when the list holds a save or a restore.
- **The step buttons of `transformToy.js`.** First, Previous, Next and Last move the slider with an eased animation (`animateToValue`).
- **The progress controller `RunCanvas` of `Libs/runCanvas.js`.** It is a slider with a text box, a play toggle and a self-rescheduling `advance`.
- **The `u`-driven schedule of `drawExp` in `scaleRotate.js`.** It gives a rotation, a stretch and a rotation back, the code lines shown, and which blocks are painted.

How the model represents the program:

- **Canvas state.** A drawing context (`Surface.Context`) is a class with three fields, changed in place by its methods:
  - the current transform, kept as the sequence of applied operations;
  - the context's own save stack;
  - the list of painted marks.
- **Rotation.** Rotation stays a symbolic angle in degrees. `Geometry.MatrixOf` gives a sequence of operations its 2x3 matrix for any rotation function that maps 0 degrees to the identity.
- **The engine.** `Engine.DoTransform` is a loop over the list. It is proved equal to the functional specification `Engine.Run`, and the properties are proved about `Run`.
- **The parser.** `parseFloat` is a parameter, `number: string -> Option<real>`, where `None` stands for NaN. Trimming, splitting, joining and the pattern `^(\w+)\((.*)\)$` are modelled exactly over strings of Unicode scalar values (module `Text`).
- **`RunCanvas`.** It is a class whose fields are the slider's value, the text box, the play checkbox, the draw calls and the slider attributes. Its methods are proved against the functions `Tick`, `Ticks` and `Toggle`.
- **Animation frames.** Frames become calls: `RunCanvas.Frames` runs `advance` frame after frame, and `StepAnimation.Frame` takes the frame's timestamp.

Where the code and the design description of the toy disagree, the model follows the code:

- **Reverse direction.** Running in reverse does not mirror the blends end to end. The code uses `N - param` as the progress and still applies the commands in list order (`ReverseIsNotMirrored`).
- **Highlight of lines not yet reached.** A line within one step of the play head is highlighted even when its command has not started. For `[rotate(90), scale(2,1)]` at 0.5 the scale line is red 127 (`RotateScaleScenario`).
- **The `"underfined"` colour.** In `scaleRotate.js` the red coordinate system is given the misspelt colour `"underfined"` up to `u = 4`. That is a non-empty string, so its block is painted with it (`RedBlockAlwaysPainted`).

## Model

| member | source | states |
|---|---|---|
| Commands.Effective | transformToy.js:117-118 | a slider value in [0, N] gives a progress in [0, N]; going forward it is the slider value, and in reverse the progress is 0 exactly at N and N exactly at 0 |
| Commands.ReverseTwice | transformToy.js:117-118 | counting from the end twice gives the slider value back, and in reverse a larger slider value is a smaller progress |
| Commands.Amt | transformToy.js:128-129 | the blend of command `i` lies in [0, 1]; it is 0 exactly when the play head is at or before `i`, 1 once it is a full step past `i`, and the fractional distance in between |
| Commands.AmtMonotone | transformToy.js:129 | the blend of a command never decreases as the progress grows |
| Commands.AmtForward | transformToy.js:124-129 | going forward, commands wholly behind the play head are fully applied, the one under it by the fractional part, the rest not at all |
| Commands.Lerp | transformToy.js:166-221 | the blended operation is the identity at blend 0, exactly the command's own operation at blend 1, and of the command's kind |
| Commands.LerpBetween | transformToy.js:166-179 | for a blend in [0, 1] every translate, rotate and scale argument lies between the identity's value and the command's |
| Commands.HighlightOf | transformToy.js:138-163 | a line is red exactly when it is within one step of the play head, with a level in [0, 255], fully red within 0.001 |
| Commands.HighlightRamp | transformToy.js:143-153 | the red level falls as the distance to the play head grows |
| Engine.DoTransform | transformToy.js:111-237 | the loop leaves the context's transform and marks and returns the trace exactly as the specification `Render` gives them, with the context's own save stack untouched |
| Engine.Process | transformToy.js:124-235 | one command changes the transform, the private stack, the marks and the trace as one `Step` of the specification |
| Engine.ProcessGeometric | transformToy.js:166-221 | translate, rotate, scale and transform apply their blended operation and write its call, nothing else |
| Engine.ProcessFill | transformToy.js:180-211 | fillRect and triangle paint only when their blend is positive, under the current transform (the triangle after moving to its corner), always write a fill-style line and a fill line, and leave the transform as it was |
| Engine.ProcessStack | transformToy.js:222-231 | save pushes the transform only when started; restore pops it back only when started and the stack is not empty; otherwise transform and stack are unchanged |
| Engine.Draw | transformToy.js:248-273 | the draw function clears, centres and scales, optionally paints the original system, renders the list in the chosen direction, optionally paints the final system, and leaves the context's transform and save stack as they were |
| Engine.ReverseDisabled | transformToy.js:677-688 | the reverse toggle is disabled exactly when some command is a save or a restore |
| EngineProperties.NoStackReference | transformToy.js:124-235 | without save/restore a render appends exactly the blended geometric operations, in list order, and leaves the private stack as it was |
| EngineProperties.TraceShowsBlendedOps | transformToy.js:166-221 | the calls shown in the trace are exactly the blended geometric operations, in list order |
| EngineProperties.LinesCalls | transformToy.js:138-221 | the calls among the lines written for the first `k` commands are exactly their blended geometric operations, in order |
| EngineProperties.RunCalls | transformToy.js:124-235 | each command adds to the trace the call of its blended operation when it is geometric, and no call otherwise |
| EngineProperties.FullyAppliedAtEnd | transformToy.js:129 | with the play head at or past the end every geometric command is applied with exactly its own arguments |
| EngineProperties.FinalRender | transformToy.js:111-237 | at the end of a forward run a save/restore-free list leaves every geometric command applied in full after what the context held |
| EngineProperties.StackKeptBetween | transformToy.js:222-231 | commands other than save/restore never change the private stack |
| EngineProperties.BracketUndone | transformToy.js:222-231 | a reached save and a later reached restore with no save/restore between them undo the transform changes in between and restore the stack |
| EngineProperties.SaveRestoreExample | transformToy.js:115-231 | `[save, translate(10,0), restore, translate(5,0)]` at progress 4 ends as a translation by (5, 0) alone |
| EngineProperties.InertTail | transformToy.js:129-231 | commands at or past the play head change neither the transform (as a matrix), nor the private stack, nor the marks |
| EngineProperties.InertOps | transformToy.js:129-231 | past the play head the transform grows only by identity operations (blend 0), and the private stack and the marks stay as they are |
| EngineProperties.NothingAtStart | transformToy.js:129 | at progress 0 forward nothing is painted and the transform is unchanged as a matrix |
| EngineProperties.TraceShape | transformToy.js:138-235 | the trace has one line per command, two per fill and none for an unknown command, keeps what came before, and the lines of each command carry that command's highlight |
| EngineProperties.ReverseIsComplementedProgress | transformToy.js:118-124 | a reverse render is the forward render at `N - param`: the order of the commands never changes |
| EngineProperties.ReverseIsNotMirrored | transformToy.js:118-129 | with three commands, progress 1 in reverse blends them [1, 1, 0], not the mirror [0, 1, 1] of progress 2 forward |
| EngineProperties.RotateScaleScenario | transformToy.js:124-179 | `[rotate(90), scale(2,1)]` at 0.5 rotates by 45 degrees, scales by the identity, and highlights both lines red 127 |
| Geometry.AppendIdentityOps | transformToy.js:166-221 | operations blended by 0 leave the matrix of the transform unchanged |
| Text.Trim | transformToy.js:785 | `trim` leaves no white space at either end, gives "" exactly for a blank string, and keeps a trimmed string unchanged |
| Text.TrimCutsEnds | transformToy.js:785 | what `trim` gives is a piece of the input with only white space before and after it: nothing but white space at the ends is removed |
| Text.JoinSplit | transformToy.js:856 | joining the pieces of a split gives the text back, and no piece holds the separator |
| Text.SplitJoin | transformToy.js:856 | splitting a join of separator-free pieces gives the pieces back |
| Text.MatchCall | transformToy.js:789 | a match of `^(\w+)\((.*)\)$` is a word, `(`, text without a line break, and `)` at the end |
| Text.MatchCallComplete | transformToy.js:789 | every line of that shape is matched, with those two groups |
| Parser.ParseNumbers | transformToy.js:799-810 | parsed parameters are as many numbers as tokens, each what `parseFloat` reads; a NaN reports a token `parseFloat` rejects |
| Parser.StopsAtFirstNaN | transformToy.js:802-806 | the first NaN stops the parse and is the token reported |
| Parser.AllNumbers | transformToy.js:799-810 | when every token is a number the parse gives exactly those numbers |
| Parser.Params | transformToy.js:798-801 | an empty parameter text gives no parameters, otherwise one per comma-separated piece |
| Parser.Classify | transformToy.js:812-848 | a command is built exactly when its name is known and takes that many numbers; otherwise the error is an unknown command or the expected and given counts |
| Parser.BuildInverse | transformToy.js:812-845 | a built command is written with exactly the name and numbers it was built from |
| Parser.ParseLine | transformToy.js:784-849 | a line gives neither command nor error exactly when it is blank, and a parsed command is one the syntax can write |
| Parser.ParseCommand | transformToy.js:784-849 | the method computes `ParseLine`, whose properties are the lemmas of `ParserProperties` |
| Parser.ParseTokens | transformToy.js:802-809 | the parameter loop computes `ParseNumbers` of the pieces |
| Parser.ParseParams | transformToy.js:798-810 | the parameters of a call are `ParseNumbers` of the trimmed comma-separated pieces |
| Parser.ParseAllCommands | transformToy.js:855-873 | parseAllCommands of a text is `ParseAll` of it |
| Parser.ReadLines | transformToy.js:859-872 | the line loop trims each line, skips empty ones, stops at the first error, and computes `ParseLines` |
| ParserProperties.ParsedIsNameAndNumbers | transformToy.js:789-848 | a parsed command has the matched name and exactly the parsed numbers, in order |
| ParserProperties.SyntaxError | transformToy.js:789-792 | a line is a syntax error exactly when it is not blank and not of the form `name(...)` |
| ParserProperties.NumberError | transformToy.js:802-806 | a number error names a token of the line that `parseFloat` rejects, and the trimmed line |
| ParserProperties.ArityError | transformToy.js:812-843 | an arity error names a known command, its arity and a different count that was given |
| ParserProperties.UnknownError | transformToy.js:846-848 | an unknown command is reported only for an unknown name whose parameters are all numbers |
| ParserProperties.ParseUnparse | transformToy.js:784-849 | parsing the printed text of a command the syntax can write gives that command back, when each of its numbers prints as a token that `parseFloat` reads back as that number |
| ParserProperties.ParseMisread | transformToy.js:784-849 | when `parseFloat` reads the printed tokens as other numbers, the printed text parses to the command of the same name holding the numbers read |
| ParserProperties.ParseUnreadable | transformToy.js:798-808 | when `parseFloat` reads a printed token as NaN, the printed text is an invalid-number error naming the first such token and the line |
| ParserProperties.CallLineBadNumber | transformToy.js:784-808 | a line `name(p1,...,pn)` whose tokens are not all numbers is an invalid-number error naming the first token `parseFloat` reads as NaN, whatever the name |
| ParserProperties.TranslateRoundTrip | transformToy.js:784-815 | `translate(1,2)`, printed with its numbers written plainly, parses back to `translate(1,2)` |
| ParserProperties.UnparseIsLine | transformToy.js:784-789 | the printed text of a command whose numbers print as non-empty, trimmed, comma-free tokens is one non-empty trimmed line |
| ParserProperties.CallLine | transformToy.js:789-848 | a line `name(p1,...)` whose tokens read as numbers is decided by the name and the count alone |
| ParserProperties.TooManyArguments | transformToy.js:812-815 | `translate(1,2,3)` is an arity error: 2 expected, 3 given |
| ParserProperties.UnknownName | transformToy.js:846-848 | `foo(1)` is an unknown command |
| ParserProperties.TriangleNotInSyntax | transformToy.js:846-848 | `triangle(1,2)` is an unknown command, although the renderer draws triangles |
| ParserProperties.FailsIffSomeLineFails | transformToy.js:859-870 | the line loop fails exactly when some non-empty line fails |
| ParserProperties.FirstBadLine | transformToy.js:859-870 | on failure the list is empty and the error is that of the first bad line, numbered from 1 with blank lines counted |
| ParserProperties.OneCommandPerLine | transformToy.js:859-872 | without error the loop gives the command of each non-empty line, in order |
| ParserProperties.TrimmedLineNotBlank | transformToy.js:785-786 | parseCommand never calls a trimmed non-empty line blank |
| ParserProperties.ParseAllFails | transformToy.js:855-873 | parseAllCommands fails exactly when some trimmed line of the text fails |
| ParserProperties.ParseAllFirstBad | transformToy.js:855-873 | on failure parseAllCommands returns no commands and the 1-based number and error of the first failing line |
| ParserProperties.ParseAllEachLine | transformToy.js:855-873 | without error parseAllCommands returns the command of every non-empty line, in order |
| ParserProperties.EmptyText | transformToy.js:855-873 | an empty text gives no commands and no error |
| ParserProperties.ParseAllUnparse | transformToy.js:855-873 | printing a list one command per line and parsing the text gives the list back, when every command's numbers print back |
| Runner.RunCanvas.constructor | Libs/runCanvas.js:30-52 | a new controller has range 0 to 1 in steps of 0.01, the given looping mode, is not running and has drawn nothing |
| Runner.RunCanvas.SetupSlider | Libs/runCanvas.js:113-117 | min, max and step are stored exactly as given and nothing else changes |
| Runner.RunCanvas.SetValue | Libs/runCanvas.js:119-126 | the slider and the text box hold the value and the draw callback gets exactly that value |
| Runner.RunCanvas.Advance | Libs/runCanvas.js:128-146 | advance is one `Tick`, and another frame is requested exactly when the run is still going |
| Runner.RunCanvas.TogglePlay | Libs/runCanvas.js:89-100 | the play toggle is one `Toggle`, and another frame is requested exactly when running |
| Runner.RunCanvas.Slide | Libs/runCanvas.js:101-104 | dragging the slider sets the value through setValue and leaves the run as it is |
| Runner.RunCanvas.Frames | Libs/runCanvas.js:142-145 | the frames after a tick make `Ticks` in a row, keep going while running, and stop only when a tick leaves the run off or the frame limit is reached |
| Runner.NoLoopHeld | Libs/runCanvas.js:132-137 | without looping the value never passes max, reaches it exactly when a full step would, and otherwise moves one step |
| Runner.LoopWraps | Libs/runCanvas.js:138-140 | with looping a non-negative value wraps into [0, max) and moves one step while below max |
| Runner.TickEffect | Libs/runCanvas.js:128-146 | a tick leaves slider and text box agreeing, draws the new value, and stops the run only when a non-looping slider reaches max |
| Runner.RunningBelowMax | Libs/runCanvas.js:132-137 | while a non-looping run goes on, each tick moved one full step and the value is below max |
| Runner.NoLoopRunEnds | Libs/runCanvas.js:132-145 | a non-looping run is over once enough steps add up to max |
| Runner.NoLoopEndsAtMax | Libs/runCanvas.js:132-137 | the tick that ends a non-looping run leaves the value exactly at max |
| Runner.LoopStaysInRange | Libs/runCanvas.js:138-145 | a looping run never stops by itself and stays in [0, max) from a non-negative start |
| Runner.PlayAtEnd | Libs/runCanvas.js:96-99 | pressing play at the end of a non-looping slider draws 0 first and then advances from 0 |
| Runner.ToggleAdvances | Libs/runCanvas.js:89-100 | every toggle advances once, pausing included, and pausing stops the run |
| Stepping.TargetsOnSlider | transformToy.js:597-617 | from a value on the slider the Previous and Next targets are on the slider |
| Stepping.TargetsMove | transformToy.js:599-615 | Previous never moves forward and Next never back, and each moves unless already at that end |
| Stepping.TargetsSnap | transformToy.js:601-613 | off a step, Previous and Next go to the whole numbers around the value |
| Stepping.EaseEnds | transformToy.js:574-577 | the easing maps 0 to 0, 1/2 to 1/2 and 1 to 1 |
| Stepping.EaseBounds | transformToy.js:574-577 | the easing stays in [0, 1] |
| Stepping.EaseMonotone | transformToy.js:574-577 | the easing never goes back |
| Stepping.ProgressBounds | transformToy.js:571-572 | the progress lies in [0, 1] and is 1 exactly once the duration has passed |
| Stepping.FrameBetween | transformToy.js:569-579 | every frame's value lies between the start value and the target, the first frame is at the start, and a frame after the duration is exactly at the target |
| Stepping.StepAnimation.constructor | transformToy.js:536-546 | the run sets up a non-looping slider from 0 to the list's length in steps of 0.02, at 0, with no animation |
| Stepping.StepAnimation.Click | transformToy.js:553-592 | clicking the running animation's button only retargets it; any other click restarts from the slider's value |
| Stepping.StepAnimation.FirstClick | transformToy.js:597 | First heads for 0 |
| Stepping.StepAnimation.PreviousClick | transformToy.js:599-606 | Previous heads for the Previous target of the slider's value |
| Stepping.StepAnimation.NextClick | transformToy.js:608-615 | Next heads for the Next target of the slider's value |
| Stepping.StepAnimation.LastClick | transformToy.js:617 | Last heads for the list's length |
| Stepping.StepAnimation.Frame | transformToy.js:569-589 | a frame fixes the start time once, sets and renders the eased value, and ends the animation once the duration has passed |
| ScaleRotate.Setup | scaleRotate.js:96-98 | the demo slider does not loop, holds 0 and has range 0 to 6 in steps of 0.02 |
| ScaleRotate.DrawCsys | scaleRotate.js:22-54 | a coordinate-system drawing paints the block only for a truthy block colour, then the grid, and leaves the transform as it was |
| ScaleRotate.DrawExp | scaleRotate.js:9-95 | drawExp writes `ExpTrace(u)`, paints `ExpMarks(u)` and leaves the transform and save stack as they were |
| ScaleRotate.DrawTurned | scaleRotate.js:63-86 | the `u > 1` part paints the red system under the three transforms and writes their lines |
| ScaleRotate.FirstRotationRange | scaleRotate.js:65-66 | the first rotation lies in [0, 45] degrees, is positive exactly after u = 1, reaches 45 at u = 2 and never decreases |
| ScaleRotate.StretchRange | scaleRotate.js:71 | the stretch lies in [1, 2], stretches exactly after u = 2, reaches 2 at u = 3 and never decreases |
| ScaleRotate.SecondRotationRange | scaleRotate.js:76 | the rotation back lies in [-45, 0], turns exactly after u = 3, reaches -45 at u = 4 and never increases |
| ScaleRotate.TraceByStage | scaleRotate.js:61-83 | the trace is the degrees note, then the rotate line after u = 1, the scale line after u = 2, and the rotation back with its two warnings after u = 3 |
| ScaleRotate.NothingTransformedAtFirst | scaleRotate.js:59-63 | up to u = 1 the trace is the note alone and only the black system is drawn, with its block before u = 1 |
| ScaleRotate.RedBlockAlwaysPainted | scaleRotate.js:84 | after u = 1 the red system's block is always painted, with `"underfined"` up to u = 4 |
| ScaleRotate.FinalSquare | scaleRotate.js:87-88 | the final square is painted exactly after u = 5 |
| ScaleRotate.OnlyTurnedAtFirst | scaleRotate.js:64-77 | up to u = 2 the red system is the black one turned by the first rotation alone |
| JsMath.RemBounds | Libs/runCanvas.js:139 | JavaScript's `%` of a non-negative number by a positive one lies in [0, max) and leaves a non-negative number below max unchanged |

## Left out

- **Trigonometry and radians.** `degToRad` and canvas rotation are not modelled. A rotation stays a symbolic angle in degrees, and matrix facts are stated for any rotation function fixing 0. scaleRotate.js computes its angles in radians; the model uses the same angles in degrees.
- **Number formatting.** `toFixed` and `Math.round` in the trace strings are not modelled. Trace lines are records with the exact numbers.
- **HTML of the trace.** The `<span>` markup and its CSS are not modelled; a line carries its highlight (`Plain` or `Red(level)`).
- **Pixels.** Paths, grid lines, line widths and stroke styles are not modelled. A painted shape is a mark with its colour and the transform it was painted under. The `fillStyle` a context holds outside a fill is not tracked.
- **The DOM and the UI wiring.** Element building, the Run/Edit/Reset handlers, the visibility toggles, `makeSelect` and the whole of selector.js are not modelled. The disabled reverse toggle is returned as a boolean; its label colour is not modelled.
- **`parseFloat` and `Number(...)`.** Both are taken as given. `parseFloat` is the parameter `number`. Values go through `String(value)` and back unchanged. The round trip of the parser is stated for a number printer `show` as a parameter.
- **Browser range-input behaviour.** The browser clamps the value into [min, max] and snaps it to the step; this is not modelled. The default value of a new range input, the middle of its range (0.5), is taken as the starting value.
- **Frame scheduling.** `requestAnimationFrame` and `cancelAnimationFrame` become explicit calls. A frame's timestamp is a parameter. A cancelled frame is simply never called, and interleavings between the two animations are not modelled.
- **The draw callback.** It is recorded as the list of values it was called with. The `if (this.drawFunc)` guard is not modelled, since every caller passes one.
- Runner.Advanced: for a looping slider with max 0, JavaScript's `%` gives NaN. The model requires max != 0 for looping slider operations instead.
- Runner.RunCanvas.Frames: a run that never stops is cut off after `limit` frames; the model says nothing about frames after that.
- **Double-precision numbers.** JavaScript numbers are doubles; the model computes with exact reals. Rounding is not modelled: for example `Runner.RunningBelowMax` adds `n` steps exactly, where repeated double additions drift. Infinity and `-0` are not represented, so `parseFloat("1e400")` or `parseFloat("Infinity")`, which give Infinity, lie outside what `number` can return.
- Runner.RunCanvas.TogglePlay: the source never cancels a frame it has requested. A pause calls `advance` while the frame requested by the previous `advance` is still pending, so in JavaScript the value moves once more on that frame. A pause followed by play within one frame starts a second chain of frames. The model has no pending frames: `Runner.RunCanvas.Frames` starts its chain from the running flag, so neither the extra step nor the doubled chain is modelled.
- **UTF-16 strings.** JavaScript strings are sequences of UTF-16 code units and may hold lone surrogates; a Dafny `char` cannot. Strings are taken as sequences of Unicode scalar values, so text with a lone surrogate is outside the model.
- **Canvas pattern of the triangle.** The fixed triangle (0,0), (10,0), (0,20) is a `Triangle` shape, not a path.
