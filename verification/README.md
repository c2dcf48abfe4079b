# Counter example: model and dispatcher

This project models the core of the vizia counter example (`vizia/src/main.rs`).

- **`AppData`** is the application model. It holds one `i32` field, `count`. Its handler applies the application messages `AppEvent::Increment` (`count += 1`) and `AppEvent::Decrement` (`count -= 1`). There is no clamping.
- **`Counter`** is a stateless composite view with two optional callback slots, `on_increment` and `on_decrement`. Both start empty. The builder modifiers each fill one slot. The view's handler takes its own `CounterEvent` and invokes the matching slot's callback if one is set.
- **`main`** builds `AppData { count: 0 }` and a `Counter`. It wires the increment callback to emit `AppEvent::Increment` and the decrement callback to emit `AppEvent::Decrement`. Emitted messages travel up the tree to the model.

Each callback is modelled as the application message it emits, which is the only way the program uses callbacks. The view's handler then returns the sequence of messages it emitted: empty, or a single message. Delivering that sequence to the model stands in for vizia's upward propagation.

Modules:
- `Wrappers`: `Option`.
- `AppModel`: `AppEvent`, the `AppData` class, the `i32` bounds, and `ApplyAll`, the count after a sequence of messages.
- `CounterView`: `CounterEvent`, the `Counter` class, `Dispatch`, which specifies the handler, and `Trace`, its repetition over a sequence of inputs.
- `CounterApp`: the wiring in `main`, the end-to-end property, and `Run`, a driver that feeds view messages through the counter into the model one at a time.

## Model

| member | source | states |
|---|---|---|
| `AppModel.Overflows` | vizia/src/main.rs:9-22 | an `i32` increment overflows exactly at `i32::MAX` and a decrement exactly at `i32::MIN`, and these are the only steps that leave the `i32` range |
| `AppModel.Opposite` | vizia/src/main.rs:18-23 | `Increment` and `Decrement` have opposite effects on the count |
| `AppModel.AppData.constructor` | vizia/src/main.rs:8-10 | a model holds the `i32` count it was built with |
| `AppModel.AppData.Event` | vizia/src/main.rs:14-25 | `Increment` raises the count by exactly 1 and `Decrement` lowers it by exactly 1. Nothing else changes, and the count stays in the `i32` range, given the message does not overflow |
| `AppModel.EventThenOpposite` | vizia/src/main.rs:17-24 | handling a message and then its opposite, in either order, leaves the count unchanged |
| `AppModel.ApplyAllCounts` | vizia/src/main.rs:17-24 | in unbounded arithmetic, a sequence of messages moves the count by the number of `Increment`s minus the number of `Decrement`s. `HandleAll` carries this to the model object while every intermediate count stays an `i32` |
| `AppModel.ApplyAllOrderIndependent` | vizia/src/main.rs:17-24 | in unbounded arithmetic, two orderings of the same messages give the same count. For the `i32` object this holds only when both orderings keep every intermediate count an `i32` |
| `AppModel.ApplyAllSnoc` | vizia/src/main.rs:17-24 | handling one more message after a sequence moves the count by exactly that message's change |
| `AppModel.HandleAll` | vizia/src/main.rs:14-25 | a model object that handles a sequence of messages one at a time ends at `ApplyAll` of its old count. It requires every intermediate count to be an `i32`, which is the only error condition |
| `AppModel.RepeatedMessages` | vizia/src/main.rs:18-23 | in unbounded arithmetic there is no clamping: `n` decrements lower any count by `n` (from 0 they reach `-n`), and `n` increments raise it by `n`. For the `i32` object this holds while every intermediate count stays an `i32` |
| `CounterView.Dispatch` | vizia/src/main.rs:75-88 | the view emits at most one message. For `Increment` it emits the increment slot's message exactly when that slot is set, and nothing when it is empty. `Decrement` works the same way with the decrement slot |
| `CounterView.DispatchConsultsOneSlot` | vizia/src/main.rs:76-87 | the slot that the message does not select has no influence on what is emitted |
| `CounterView.UnwiredTraceIsEmpty` | vizia/src/main.rs:76-87 | a view with both slots empty emits nothing for any sequence of inputs |
| `CounterView.WiredTraceCounts` | vizia/src/main.rs:76-87 | with both slots set, each input emits exactly one message, in input order: the increment slot's message for `Increment` and the decrement slot's for `Decrement`. When the two slot messages differ, their counts equal the counts of the corresponding inputs |
| `CounterView.Counter.constructor` | vizia/src/main.rs:99-103 | a new view has both callback slots empty |
| `CounterView.Counter.OnIncrement` | vizia/src/main.rs:61-63 | sets the increment slot, replacing any previous callback, and leaves the decrement slot unchanged |
| `CounterView.Counter.OnDecrement` | vizia/src/main.rs:58-60 | sets the decrement slot, replacing any previous callback, and leaves the increment slot unchanged |
| `CounterView.Counter.Event` | vizia/src/main.rs:75-88 | the view's handler emits what `Dispatch` gives for its current slots |
| `CounterView.FreshCounterEmitsNothing` | vizia/src/main.rs:99-103 | a freshly built view emits nothing for either of its messages |
| `CounterView.LastCallbackWins` | vizia/src/main.rs:61-62 | after two `on_increment` calls, only the second callback is invoked |
| `CounterApp.EndToEnd` | vizia/src/main.rs:135-139 | in unbounded arithmetic, starting from `count = 0` with `main`'s wiring, `n` view increments and `m` view decrements in any order give `count == n - m`. `Run` shows the same for the `i32` objects while every intermediate count stays an `i32` |
| `CounterApp.UnwiredCounterLeavesCount` | vizia/src/main.rs:76-87 | a view without callbacks never changes the model's count |
| `CounterApp.Run` | vizia/src/main.rs:132-139 | building the model and the wired view, then feeding them the inputs one at a time, ends with the count at increments minus decrements. Every intermediate count must be an `i32` |

## Left out

- View-tree construction in `Counter::new` (`HStack`, `Button`, `Label`, the `.class` tags), lines 104-124. This is layout, handled by the vizia library.
- Application startup (`Application::new`, `.title`, `.inner_size`, `.run()`), and loading the stylesheet with `.expect`, lines 132-148. This is windowing and file I/O.
- vizia's event machinery: the type narrowing done by `event.map`, `EventContext::emit`, upward propagation through the tree, absorption through `meta`, and `Handle::modify`. Each handler takes only its own message type. "Emit" is modelled as returning the message. `CounterApp.Run` stands in for the run loop and delivers each emitted message straight to the model.
- The lens binding (`#[derive(Lens)]`, `Label::new(cx, lens)`) and re-rendering. The label's value is the model's count, so it is not modelled separately.
- General closures (`Box<dyn Fn(&mut EventContext)>`). A callback is modelled as the one application message it emits.
- `AppModel.AppData.Event`: it requires that the step does not overflow `i32`. The model does not cover Rust's overflow behaviour: a panic in debug builds, or wrap-around in release builds.
- `AppModel.ApplyAllCounts`: stated over `ApplyAll`, which uses unbounded integers. It describes the `i32` count only while every intermediate count stays in range, which is what `AppModel.HandleAll` requires.
- `AppModel.ApplyAllOrderIndependent`: stated in unbounded integers. Near the `i32` limits one ordering can overflow where another does not: from `i32::MAX`, `[Increment, Decrement]` overflows but `[Decrement, Increment]` does not.
- `AppModel.RepeatedMessages`: stated in unbounded integers. For the `i32` count it holds only while the count stays in range, so from 0 for at most 2^31 decrements.
- `CounterApp.EndToEnd`: stated in unbounded integers. `CounterApp.Run` gives the same result for the `i32` objects, requiring every intermediate count to stay in range.
