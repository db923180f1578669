# Proxy-rotation dashboard: a Dafny model of its core

This project models the two parts of the dashboard that carry logic:

- **The dashboard page** (`page.tsx`). The React state of the `Home` component is the class
  `Dashboard.Home`. Its fields are the current identity, the proxy table, the auto-rotation switch,
  the rotation interval and the progress bar. The new-proxy form, the terminal's visibility and the
  terminal log are fields too. The handlers are methods:
  - rotate now;
  - flip the auto-rotation switch;
  - one tick of the one-second countdown timer;
  - add a proxy;
  - open or close the terminal;
  - run a typed terminal command.

  The derived numbers on the page are functions: the active/total proxy counts and the
  "NEXT ROTATION" seconds. The countdown arithmetic lives in `Countdown` as pure functions. Its
  lemmas give a closed form for any number of ticks. The proxy lists and their counts live in
  `Proxies`. ASCII lower-casing and decimal rendering of IP octets live in `Text`.
- **The network map** (`NetworkMapper.tsx`). The class `NetworkMap.Simulation` holds the canvas
  size and a fixed array of 30 nodes. `Mount` models the component's effect, including its guard
  for a missing canvas or 2D context. `Resize` models the resize listener. `Draw` models one
  animation frame:
  - `Connections` finds the links, testing every pair `i < j` once;
  - `Move` then steps every node in place, bouncing off the canvas edges.

  The functions `Links`, `Step`, `Advance` and `Frames` specify these methods. The lemmas prove:
  - the link predicate is symmetric;
  - each pair is drawn at most once, in row order;
  - the reflection invariant holds after any number of frames.

Randomness and the clock are parameters. `Dashboard.Draw` carries four octets below 255, a
country index below 5, a latency in [0, 2), the ISO time string and the current instant.
`NetworkMap.NodeDraw` carries the six `Math.random` results of one node. Coordinates and progress
are exact `real`s, not IEEE doubles.

### Where the code departs from what one might expect (the model follows the code)

- **Rotation period.** The timer checks `prev >= 100` before adding a share, so at interval `n`
  the bar reaches exactly 100 after `n` ticks. The rotation fires on tick `n + 1`, so a cycle is
  61 ticks at 60 s, not 60. See `Countdown.TicksClosedForm` and `Countdown.RotatesOnTickAfterFull`.
- **Commands are not trimmed.** Only `toLowerCase` is applied, so `" help"` is an unknown command
  (`Dashboard.ParseRecognises`).
- **The interval is not clamped.** The slider only offers 10 to 300 s, so
  `Home.SetRotationInterval` requires that range.
- **`clear` empties the log completely**, including the echo of `clear`. The echo is queued as an
  updater and then overwritten by the empty list.
- **The label can read below 0.** One might expect the bar to reset as soon as it reaches 100. But if the
  interval is lowered mid-cycle, the bar can pass 100 before resetting. Raising the interval
  again before the next tick then makes the "NEXT ROTATION" label negative
  (`Countdown.LabelNegativeAfterOvershoot`).

## Model

| member | source | states |
|---|---|---|
| `Text.LowerChar` | page.tsx:292 | lower-casing leaves no upper-case letter and changes a character only if it is an upper-case letter, by +32 |
| `Text.Lower` | page.tsx:292-306 | `toLowerCase` keeps the length, lower-cases each character in place, and leaves no upper-case letter |
| `Text.LowerIdempotent` | page.tsx:292-306 | lower-casing an already lower-cased command changes nothing |
| `Text.Decimal` | page.tsx:121 | an octet renders as 1 to 3 digits without a leading zero |
| `Text.DecimalRoundTrip` | page.tsx:121 | reading the rendered digits back gives the octet |
| `Text.DecimalInjective` | page.tsx:121 | distinct octets render differently |
| `Countdown.Ticks` | page.tsx:93-100 | k ticks fire at most k rotations; from a non-negative bar the progress stays non-negative |
| `Countdown.Step` | page.tsx:94-100 | a tick rotates iff the previous progress is >= 100; a rotating tick resets to exactly 0; any other tick adds exactly 100/interval |
| `Countdown.TicksAfterCycles` | page.tsx:93-100 | after q full cycles of n+1 ticks and r more ticks, q rotations have fired and the bar holds r shares |
| `Countdown.TicksClosedForm` | page.tsx:93-100 | after k ticks from 0: k div (n+1) rotations, progress (k mod (n+1))·100/n |
| `Countdown.FillsWithoutRotating` | page.tsx:93-100 | the first n ticks add k·100/n and fire no rotation |
| `Countdown.RotatesOnTickAfterFull` | page.tsx:93-100 | progress is exactly 100 after n ticks; tick n+1 rotates once and resets to 0 with no carry-over |
| `Countdown.CyclesRotateOncePerCycle` | page.tsx:93-100 | m cycles of n+1 ticks fire exactly m rotations and end at 0 |
| `Countdown.ProgressStaysInBar` | page.tsx:93-100 | at a fixed interval the bar stays within [0, 100] |
| `Countdown.StepKeepsRange` | page.tsx:94-100 | with any slider interval (>= 10), a bar in [0, 110) stays in [0, 110) |
| `Countdown.Ceil` | page.tsx:583 | `Math.ceil`: the least integer not below its argument |
| `Countdown.SecondsToNext` | page.tsx:583 | the label is the least whole number of seconds whose shares of 100/interval take the bar from its progress to at least 100 |
| `Countdown.SharesToFull` | page.tsx:583 | rounding the remaining time up gives enough shares to fill the bar, and one share fewer does not |
| `Countdown.SecondsWithinInterval` | page.tsx:583 | the label is at most the interval, and at least 0 while progress <= 100 |
| `Countdown.SecondsCountDown` | page.tsx:583 | k ticks after a reset the label reads n − k |
| `Countdown.LabelNegativeAfterOvershoot` | page.tsx:583 | a concrete interval change sequence drives progress above 100 and the label to −25 |
| `Proxies.TypeName` | page.tsx:176 | the proxy type's spelling in log lines is a non-empty word of lower-case letters |
| `Proxies.TypeNameInjective` | page.tsx:176 | distinct proxy types are spelled differently |
| `Proxies.Initial` | page.tsx:39-49 | the initial table has a list for every proxy type |
| `Proxies.All` | page.tsx:421-422 | `Object.values(proxies).flat()` holds every proxy of the three lists and nothing else; its length is the sum of theirs |
| `Proxies.Actives` | page.tsx:421-423 | the active filter keeps exactly the active proxies and is no longer than its input |
| `Proxies.ActivesIsFilter` | page.tsx:421-423 | the filter keeps every active entry as often as it occurs and drops every other entry: multiset(filtered) = the active part of multiset(input) |
| `Proxies.ActivesCountsPositions` | page.tsx:421-423 | the filtered length is the number of positions whose status is "active" |
| `Proxies.ActiveCount` | page.tsx:421-428 | the active count is the number of listed entries whose status is "active", and never exceeds the total |
| `Proxies.Appended` | page.tsx:168-174 | adding appends the proxy to the chosen type's list only; every other list is unchanged |
| `Proxies.ActivesConcat` | page.tsx:421-424 | filtering a concatenation is concatenating the filtered parts |
| `Proxies.AppendedCounts` | page.tsx:168-176 | adding raises the total by one, and the active count by one exactly when the new proxy is active |
| `Proxies.InitialCounts` | page.tsx:39-49 | the initial table shows 3 active out of 5 |
| `Dashboard.InitialIdentity` | page.tsx:51-64 | the start-up identity is the Local Tor proxy (the first Tor entry) in Amsterdam, Netherlands |
| `Dashboard.IpText` | page.tsx:121 | the dotted quad is made of digits and dots only, with 7 to 15 characters |
| `Dashboard.SplitAt` | page.tsx:121 | a field free of the separator, then the separator, is recovered from the text it starts, and so is the rest |
| `Dashboard.SplitOctet` | page.tsx:121 | one rendered octet and its dot are recovered from the front of the text |
| `Dashboard.IpTextInjective` | page.tsx:121 | the logged address determines the four drawn octets |
| `Dashboard.RotationLine` | page.tsx:139 | the logged line is "IP rotated to ", the new address, " (", the new country and ")" |
| `Dashboard.RotationTextInjective` | page.tsx:139 | a rotation line names exactly one address and one country |
| `Dashboard.RotationLineInjective` | page.tsx:121-139 | the rotation line determines the four drawn octets and the drawn country |
| `Dashboard.Rotated` | page.tsx:124-134 | a rotation sets address, time, latency, country and that country's city; proxy, region, org, time zone and success are kept |
| `Dashboard.Parse` | page.tsx:292-306 | a recognised command is 4 to 6 characters long and holds no blank |
| `Dashboard.ParseIgnoresCase` | page.tsx:292-306 | a command and its lower-case form select the same action |
| `Dashboard.ParseRecognises` | page.tsx:292-307 | a command is recognised iff its lower-case form is one of the five words; "HELP" acts as "help"; " help" is unknown |
| `Dashboard.StatusLines` | page.tsx:297-300 | `status` prints exactly four lines |
| `Dashboard.AddedLine` | page.tsx:176 | "Added new " + type + " proxy: " + name: 18 characters more than the type and name, ending with the name |
| `Dashboard.AddedTextInjective` | page.tsx:176 | an added-proxy line names exactly one type and one name |
| `Dashboard.AddedLineInjective` | page.tsx:176 | the added-proxy line determines the proxy's type and name |
| `Dashboard.Logged` | page.tsx:113-115 | logging lines keeps their number and prefixes each with "> " |
| `Dashboard.LoggedConcat` | page.tsx:113-115 | logging two batches is logging their concatenation |
| `Dashboard.Home.constructor` | page.tsx:68-86 | the initial state: idle, interval 60, progress 0, no last rotation, empty form, hidden terminal, the four start-up lines |
| `Dashboard.Home.AddTerminalLine` | page.tsx:113-115 | appends exactly "> " + line; earlier lines are unchanged and in order |
| `Dashboard.Home.RotateIP` | page.tsx:117-145 | one "IP rotated to … (…)" line, the rotated identity, the last-rotation time; `isRotating` and `progress` unchanged |
| `Dashboard.Home.Tick` | page.tsx:90-104 | idle: nothing changes. Rotating: progress becomes `Step`'s. A full bar rotates exactly once; otherwise no rotation and no log line |
| `Dashboard.Home.ToggleRotation` | page.tsx:147-156 | from idle: one rotation, progress 0, then the "activated" line. From active: only the "deactivated" line, no rotation, progress kept. The switch flips |
| `Dashboard.Home.SetRotationInterval` | page.tsx:550-556 | the slider's value becomes the interval; the bar keeps its value |
| `Dashboard.Home.SetNewProxyName` | page.tsx:723 | the name input is set |
| `Dashboard.Home.SetNewProxyUrl` | page.tsx:736 | the URL input is set |
| `Dashboard.Home.SetNewProxyType` | page.tsx:704 | the type select is set |
| `Dashboard.Home.AddProxy` | page.tsx:158-185 | with an empty name or URL nothing changes. Otherwise {name, url, "inactive"} joins the chosen list only, one line is logged and both inputs are emptied |
| `Dashboard.Home.ToggleTerminal` | page.tsx:205-210 | the terminal flips; "Terminal activated" is logged only when it opens |
| `Dashboard.Home.LogStatus` | page.tsx:297-300 | appends the four status lines for the current identity and switch, each prefixed; nothing else changes |
| `Dashboard.Home.RunCommand` | page.tsx:286-311 | echo first, then: help line; a rotation; exactly 4 status lines; an empty log; terminal hidden; or the single unknown-command line. Only `rotate` changes the identity, only `exit` the terminal |
| `Dashboard.ProxyCounts` | page.tsx:421-428 | active is the number of entries whose status is "active"; active <= total; total is the sum of the three list lengths |
| `Dashboard.NextRotationSeconds` | page.tsx:583 | the label never exceeds the interval and is not negative while progress <= 100 |
| `Dashboard.ToggleTwice` | page.tsx:147-156 | two flips restore the switch, fire exactly one rotation and leave progress 0. From idle the log gains the rotation, "activated" and "deactivated" lines; from active it gains "deactivated", the rotation and "activated". Only the switch, bar, identity, last rotation and log may change |
| `Dashboard.SwitchOnHalfwayOff` | page.tsx:90-156 | at 60 s: switch on, 30 ticks bring the bar to exactly 50, switch off; later ticks change nothing; 3 lines logged in all |
| `NetworkMap.Scaled` | NetworkMapper.tsx:40-41 | `random * size` lies in [0, size), or is 0 on an empty axis |
| `NetworkMap.Spawn` | NetworkMapper.tsx:39-46 | a new node lies on the canvas; radius in [1, 3); vx, vy in [-0.25, 0.25); linked iff the draw is above 0.3 |
| `NetworkMap.Dist2` | NetworkMapper.tsx:59-61 | the squared distance dx·dx + dy·dy is never negative |
| `NetworkMap.NearSpan` | NetworkMapper.tsx:59-63 | a squared distance below 100² puts the nodes within 100 of each other on each axis |
| `NetworkMap.Near` | NetworkMapper.tsx:59-63 | two linked nodes are less than 100 apart on each axis |
| `NetworkMap.NearSymmetric` | NetworkMapper.tsx:59-63 | the link predicate is symmetric in the two nodes |
| `NetworkMap.SquareRootThreshold` | NetworkMapper.tsx:61-63 | for a non-negative root of the squared distance, root < 100 iff squared distance < 10000 |
| `NetworkMap.Row` | NetworkMapper.tsx:58-69 | row i tested up to column j yields fewer than j − i links |
| `NetworkMap.Before` | NetworkMapper.tsx:57-70 | the first i rows yield at most i·n links |
| `NetworkMap.Links` | NetworkMapper.tsx:57-70 | every drawn link joins a lower index to a higher one, both inside the array |
| `NetworkMap.OrderedConcat` | NetworkMapper.tsx:57-58 | two ordered link lists, all of the first before all of the second, concatenate to an ordered list |
| `NetworkMap.RowShape` | NetworkMapper.tsx:58-69 | a row's links all start at that row, end beyond it, join near nodes, and are in column order |
| `NetworkMap.RowMember` | NetworkMapper.tsx:58-69 | (i, b) is in row i iff i < b and the two nodes are near |
| `NetworkMap.RowIndex` | NetworkMapper.tsx:58-69 | a near pair (i, b) with b past i occurs at some position of row i |
| `NetworkMap.BeforeShape` | NetworkMapper.tsx:57-70 | the links of the first rows have a lower index first, join near nodes, and are in drawing order |
| `NetworkMap.BeforeIndex` | NetworkMapper.tsx:57-70 | a near pair a < b with a among the first i rows occurs at some position of their links |
| `NetworkMap.BeforeMember` | NetworkMapper.tsx:57-70 | (a, b) is among the links of the first i rows iff a < i, a < b and the nodes are near |
| `NetworkMap.LinksExactly` | NetworkMapper.tsx:57-70 | (a, b) is drawn iff a < b < n and the nodes are closer than 100 |
| `NetworkMap.LinksSymmetricOnce` | NetworkMapper.tsx:57-70 | a pair is drawn one way or the other iff it is near; never both ways; links are in strict row-then-column order (no duplicates) |
| `NetworkMap.Step` | NetworkMapper.tsx:81-87 | the move adds the velocity. A component is negated when the new coordinate leaves [0, size] and kept when it stays inside. Speed, radius and linked flag never change |
| `NetworkMap.Advance` | NetworkMapper.tsx:73-88 | a frame keeps the number of nodes |
| `NetworkMap.Frames` | NetworkMapper.tsx:73-88 | any number of frames keep the number of nodes |
| `NetworkMap.StepConfined` | NetworkMapper.tsx:82-87 | one step keeps a node within one velocity step of the canvas, heading back when outside |
| `NetworkMap.SpawnConfined` | NetworkMapper.tsx:39-46 | on a canvas at least 1×1, a new node starts confined |
| `NetworkMap.FramesConfined` | NetworkMapper.tsx:82-87 | the reflection invariant holds after any number of frames on an unchanged canvas |
| `NetworkMap.FramesKeepNodes` | NetworkMapper.tsx:73-88 | no frame changes a node's radius or linked flag |
| `NetworkMap.Simulation.constructor` | NetworkMapper.tsx:16-47 | the canvas takes its laid-out size and the array holds exactly the 30 spawned nodes, in push order |
| `NetworkMap.Simulation.Mount` | NetworkMapper.tsx:8-47 | without a canvas or a 2D context nothing is set up; otherwise a fresh simulation as the constructor builds it |
| `NetworkMap.Simulation.Resize` | NetworkMapper.tsx:16-19 | width and height change together; no node changes |
| `NetworkMap.Simulation.Connections` | NetworkMapper.tsx:57-70 | the pairs tested i < j, in order, give exactly `Links` of the current nodes |
| `NetworkMap.Simulation.Move` | NetworkMapper.tsx:73-88 | every node takes its `Step` in place; nothing is added, removed or reordered |
| `NetworkMap.Simulation.Draw` | NetworkMapper.tsx:50-89 | links among start-of-frame positions, then the moves; the array stays 30 long and the reflection invariant survives |

## Left out

- Markup, cards, tabs, badges and styling in page.tsx, and the four logo components: presentation only.
- `toast(...)` notifications: fire-and-forget; no state depends on them.
- The test, leak-check and clear-logs buttons (page.tsx:187-203, 610-656), whose second line
  arrives from a `setTimeout`, and terminal auto-scroll (page.tsx:107-111): timer and DOM plumbing.
- The real timer cadences (1 s, 30 ms) and their cleanup on unmount, and the resize listener's
  removal. Each tick or frame is one method call.
- Canvas drawing calls and node colours. `Draw` returns the links it would draw; nodes are drawn
  at their start-of-frame positions.
- `Math.random`, `new Date()` and `toISOString` formatting: their results are parameters (`Draw`,
  `NodeDraw`).
- Floating point: the model uses exact reals. In IEEE doubles, 60 additions of 100/60 need not land
  exactly on 100, which can delay a rotation by one tick.
- Text.Lower: covers ASCII letters only; JavaScript's `toLowerCase` also lower-cases other
  alphabets.
- Dashboard.Home.Tick: the timer's closure captures `rotateIP` from when the effect last ran. The
  model rotates the current identity. The two agree because the fields a rotation keeps never
  change anywhere else.
- React details: updates are applied in program order, as the handlers' functional updaters make
  them. A development-mode double invocation of an updater is not modelled.
- Page state with no logic: the active tab, the anonymity score and the selected rotation proxy type.
- NetworkMap.FramesConfined: holds only for a fixed canvas size. After a resize, nodes may lie
  outside the new bounds until they come back on their own.
- Nodes: the source keeps mutable node objects in its array. The model keeps node values and
  replaces each array element. Nothing else references a node, so no aliasing is lost.
- changer.py and the Python shell interface: subprocess, HTTP and signal plumbing outside the
  dashboard.
