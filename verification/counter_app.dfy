/** `main`: a model whose count starts at 0 and a `Counter` whose increment
    callback emits `AppEvent::Increment` and whose decrement callback emits
    `AppEvent::Decrement`; every emitted message reaches the model. */
module CounterApp {
  import opened Wrappers
  import AppModel
  import CounterView

  /** `AppData { count: 0 }`. */
  const InitialCount: int := 0

  /** The callbacks `main` installs on the counter. */
  const MainOnIncrement: Option<AppModel.AppEvent> := Some(AppModel.Increment)
  const MainOnDecrement: Option<AppModel.AppEvent> := Some(AppModel.Decrement)

  /** Button presses on the increment side minus those on the decrement side. */
  function Net(inputs: seq<CounterView.CounterEvent>): int {
    multiset(inputs)[CounterView.Increment] as int - multiset(inputs)[CounterView.Decrement]
  }

  /** With `main`'s wiring, `n` increments and `m` decrements of the view, in
      any order, leave the model's count at `n - m`. */
  lemma EndToEnd(inputs: seq<CounterView.CounterEvent>)
    ensures AppModel.ApplyAll(InitialCount, CounterView.Trace(MainOnIncrement, MainOnDecrement, inputs)) == Net(inputs)
  {
    var trace := CounterView.Trace(MainOnIncrement, MainOnDecrement, inputs);
    CounterView.WiredTraceCounts(AppModel.Increment, AppModel.Decrement, inputs);
    AppModel.ApplyAllCounts(InitialCount, trace);
  }

  /** A counter without callbacks never changes the model. */
  lemma UnwiredCounterLeavesCount(count: int, inputs: seq<CounterView.CounterEvent>)
    ensures AppModel.ApplyAll(count, CounterView.Trace(None, None, inputs)) == count
  {
    CounterView.UnwiredTraceIsEmpty(inputs);
  }

  /** The application as the run loop drives it: each view message is handled
      by the counter, and each message its callback emits is handled by the
      model before the next view message is taken. No intermediate count may
      leave the `i32` range. */
  method Run(inputs: seq<CounterView.CounterEvent>) returns (count: int)
    requires forall k :: 0 <= k <= |inputs| ==> AppModel.InI32(Net(inputs[..k]))
    ensures count == Net(inputs)
    ensures count == AppModel.ApplyAll(InitialCount, CounterView.Trace(MainOnIncrement, MainOnDecrement, inputs))
  {
    var data := new AppModel.AppData(InitialCount);
    var counter := new CounterView.Counter();
    counter.OnIncrement(AppModel.Increment);
    counter.OnDecrement(AppModel.Decrement);
    var i := 0;
    while i < |inputs|
      invariant 0 <= i <= |inputs|
      invariant counter.onIncrement == MainOnIncrement && counter.onDecrement == MainOnDecrement
      invariant data.Valid() && data.count == Net(inputs[..i])
    {
      assert inputs[..i + 1] == inputs[..i] + [inputs[i]];
      assert AppModel.InI32(Net(inputs[..i + 1]));
      var emitted := counter.Event(inputs[i]);
      if emitted != [] {
        data.Event(emitted[0]);
      }
      i := i + 1;
    }
    assert inputs[..i] == inputs;
    count := data.count;
    EndToEnd(inputs);
  }
}
