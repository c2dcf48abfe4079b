/** The `Counter` composite view: two optional callback slots and the handler
    that turns the view's own `CounterEvent`s into calls of those callbacks.
    A callback is abstracted as the application message it emits. */
module CounterView {
  import opened Wrappers
  import AppModel

  /** `CounterEvent`: the messages the view's own buttons emit. */
  datatype CounterEvent = Increment | Decrement

  /** What `Counter::event` emits for `e`: the message of the matching slot when
      that slot is set, nothing when it is empty. The other slot plays no part. */
  function Dispatch(onIncrement: Option<AppModel.AppEvent>, onDecrement: Option<AppModel.AppEvent>,
                    e: CounterEvent): (emitted: seq<AppModel.AppEvent>)
    ensures |emitted| <= 1
    ensures e == Increment ==> (emitted == [] <==> onIncrement == None)
    ensures e == Increment && emitted != [] ==> onIncrement == Some(emitted[0])
    ensures e == Decrement ==> (emitted == [] <==> onDecrement == None)
    ensures e == Decrement && emitted != [] ==> onDecrement == Some(emitted[0])
  {
    match e
    case Increment => if onIncrement.Some? then [onIncrement.value] else []
    case Decrement => if onDecrement.Some? then [onDecrement.value] else []
  }

  /** The slot that `e` does not select can hold anything without changing
      what is emitted. */
  lemma DispatchConsultsOneSlot(onIncrement: Option<AppModel.AppEvent>, onDecrement: Option<AppModel.AppEvent>,
                                other: Option<AppModel.AppEvent>)
    ensures Dispatch(onIncrement, onDecrement, Increment) == Dispatch(onIncrement, other, Increment)
    ensures Dispatch(onIncrement, onDecrement, Decrement) == Dispatch(other, onDecrement, Decrement)
  {
  }

  /** The messages emitted when the view handles `inputs` one after another. */
  function Trace(onIncrement: Option<AppModel.AppEvent>, onDecrement: Option<AppModel.AppEvent>,
                 inputs: seq<CounterEvent>): seq<AppModel.AppEvent>
    decreases |inputs|
  {
    if inputs == [] then []
    else Dispatch(onIncrement, onDecrement, inputs[0]) + Trace(onIncrement, onDecrement, inputs[1..])
  }

  /** A view with both slots empty emits nothing, whatever its inputs. */
  lemma {:induction false} UnwiredTraceIsEmpty(inputs: seq<CounterEvent>)
    ensures Trace(None, None, inputs) == []
    decreases |inputs|
  {
    if inputs != [] {
      UnwiredTraceIsEmpty(inputs[1..]);
    }
  }

  /** Each input emits exactly the message of its slot when both slots are set. */
  lemma {:induction false} WiredTraceCounts(inc: AppModel.AppEvent, dec: AppModel.AppEvent, inputs: seq<CounterEvent>)
    ensures |Trace(Some(inc), Some(dec), inputs)| == |inputs|
    ensures forall i :: 0 <= i < |inputs| ==>
      Trace(Some(inc), Some(dec), inputs)[i] == if inputs[i] == Increment then inc else dec
    ensures inc != dec ==>
      multiset(Trace(Some(inc), Some(dec), inputs))[inc] == multiset(inputs)[Increment] &&
      multiset(Trace(Some(inc), Some(dec), inputs))[dec] == multiset(inputs)[Decrement]
    decreases |inputs|
  {
    if inputs != [] {
      assert inputs == [inputs[0]] + inputs[1..];
      WiredTraceCounts(inc, dec, inputs[1..]);
    }
  }

  /** The `Counter` view state: its two callback slots. */
  class Counter {
    var onIncrement: Option<AppModel.AppEvent>
    var onDecrement: Option<AppModel.AppEvent>

    /** `Counter::new` starts with both slots empty. */
    constructor ()
      ensures onIncrement == None && onDecrement == None
    {
      onIncrement := None;
      onDecrement := None;
    }

    /** `on_increment(callback)` fills the increment slot, replacing whatever
        it held, and leaves the decrement slot alone. */
    method OnIncrement(callback: AppModel.AppEvent)
      modifies this`onIncrement
      ensures onIncrement == Some(callback)
      ensures onDecrement == old(onDecrement)
    {
      onIncrement := Some(callback);
    }

    /** `on_decrement(callback)` fills the decrement slot, replacing whatever
        it held, and leaves the increment slot alone. */
    method OnDecrement(callback: AppModel.AppEvent)
      modifies this`onDecrement
      ensures onDecrement == Some(callback)
      ensures onIncrement == old(onIncrement)
    {
      onDecrement := Some(callback);
    }

    /** `impl View for Counter::event`: invoke the callback of the slot that
        matches `e` if it is set; returns what the callback emits. */
    method Event(e: CounterEvent) returns (emitted: seq<AppModel.AppEvent>)
      ensures emitted == Dispatch(onIncrement, onDecrement, e)
    {
      emitted := [];
      match e
      case Increment =>
        if onIncrement.Some? {
          emitted := [onIncrement.value];
        }
      case Decrement =>
        if onDecrement.Some? {
          emitted := [onDecrement.value];
        }
    }
  }

  /** A freshly built view, with no callback installed, emits nothing for
      either of its messages. */
  method FreshCounterEmitsNothing(e: CounterEvent) returns (emitted: seq<AppModel.AppEvent>)
    ensures emitted == []
  {
    var counter := new Counter();
    emitted := counter.Event(e);
  }

  /** Installing a second increment callback replaces the first: only the
      second is invoked afterwards. */
  method LastCallbackWins(first: AppModel.AppEvent, second: AppModel.AppEvent)
    returns (emitted: seq<AppModel.AppEvent>)
    ensures emitted == [second]
  {
    var counter := new Counter();
    counter.OnIncrement(first);
    counter.OnIncrement(second);
    emitted := counter.Event(Increment);
  }
}
