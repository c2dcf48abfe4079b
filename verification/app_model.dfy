/** The application state of the counter: the `AppData` model, whose only field
    is an `i32` count, and the two application messages `AppEvent` that change it. */
module AppModel {

  /** The bounds of Rust's `i32`, the type of `AppData::count`. */
  const I32Min: int := -0x8000_0000
  const I32Max: int := 0x7fff_ffff

  predicate InI32(x: int) {
    I32Min <= x <= I32Max
  }

  /** `AppEvent`: the application-level messages. */
  datatype AppEvent = Increment | Decrement

  /** The change the model's handler makes to the count for `msg`. */
  function Delta(msg: AppEvent): int {
    match msg
    case Increment => 1
    case Decrement => -1
  }

  /** The message whose handling undoes `msg`. */
  function Opposite(msg: AppEvent): (r: AppEvent)
    ensures r != msg
    ensures Delta(msg) + Delta(r) == 0
  {
    match msg
    case Increment => Decrement
    case Decrement => Increment
  }

  /** Whether `count += 1` / `count -= 1` on an `i32` overflows: only an
      increment at the largest value and a decrement at the smallest do. */
  function Overflows(count: int, msg: AppEvent): (b: bool)
    requires InI32(count)
    ensures b <==> !InI32(count + Delta(msg))
  {
    match msg
    case Increment => count == I32Max
    case Decrement => count == I32Min
  }

  /** The count after the model has handled `msgs` in order, starting from
      `count`, in unbounded arithmetic. */
  function ApplyAll(count: int, msgs: seq<AppEvent>): int
    decreases |msgs|
  {
    if msgs == [] then count else ApplyAll(count + Delta(msgs[0]), msgs[1..])
  }

  /** Handling a sequence of messages adds one per `Increment` in it and
      subtracts one per `Decrement`, whatever their order. */
  lemma {:induction false} ApplyAllCounts(count: int, msgs: seq<AppEvent>)
    ensures ApplyAll(count, msgs) == count + multiset(msgs)[Increment] - multiset(msgs)[Decrement]
    decreases |msgs|
  {
    if msgs != [] {
      assert msgs == [msgs[0]] + msgs[1..];
      ApplyAllCounts(count + Delta(msgs[0]), msgs[1..]);
    }
  }

  /** Reordering the messages does not change the final count. */
  lemma ApplyAllOrderIndependent(count: int, a: seq<AppEvent>, b: seq<AppEvent>)
    requires multiset(a) == multiset(b)
    ensures ApplyAll(count, a) == ApplyAll(count, b)
  {
    ApplyAllCounts(count, a);
    ApplyAllCounts(count, b);
  }

  /** Handling one more message after a sequence moves the count by that
      message's change. */
  lemma {:induction false} ApplyAllSnoc(count: int, msgs: seq<AppEvent>, msg: AppEvent)
    ensures ApplyAll(count, msgs + [msg]) == ApplyAll(count, msgs) + Delta(msg)
    decreases |msgs|
  {
    if msgs != [] {
      assert (msgs + [msg])[1..] == msgs[1..] + [msg];
      ApplyAllSnoc(count + Delta(msgs[0]), msgs[1..], msg);
    }
  }

  /** `n` copies of `msg`. */
  function Repeat(msg: AppEvent, n: nat): seq<AppEvent>
    decreases n
  {
    if n == 0 then [] else [msg] + Repeat(msg, n - 1)
  }

  /** There is no clamping: `n` decrements lower the count by `n` from any start,
      so from 0 they reach `-n`; `n` increments raise it by `n`. */
  lemma {:induction false} RepeatedMessages(count: int, msg: AppEvent, n: nat)
    ensures msg == Decrement ==> ApplyAll(count, Repeat(msg, n)) == count - n
    ensures msg == Increment ==> ApplyAll(count, Repeat(msg, n)) == count + n
    decreases n
  {
    if n > 0 {
      RepeatedMessages(count + Delta(msg), msg, n - 1);
    }
  }

  /** The `AppData` model. Its count stays an `i32` value. */
  class AppData {
    var count: int

    ghost predicate Valid()
      reads this
    {
      InI32(count)
    }

    /** `AppData { count }`. */
    constructor (count: int)
      requires InI32(count)
      ensures Valid() && this.count == count
    {
      this.count := count;
    }

    /** `impl Model for AppData::event`: `Increment` adds one to the count and
        `Decrement` subtracts one, with no clamping; an overflow of the `i32`
        is the only error, and callers must not cause it. */
    method Event(msg: AppEvent)
      requires Valid() && !Overflows(count, msg)
      modifies this`count
      ensures Valid()
      ensures count == old(count) + Delta(msg)
    {
      match msg
      case Decrement =>
        count := count - 1;
      case Increment =>
        count := count + 1;
    }
  }

  /** A model that handles a message and then its opposite is back where it
      started, whichever of the two comes first. */
  method EventThenOpposite(start: int, msg: AppEvent) returns (count: int)
    requires InI32(start) && !Overflows(start, msg)
    ensures count == start
  {
    var data := new AppData(start);
    data.Event(msg);
    data.Event(Opposite(msg));
    count := data.count;
  }

  /** The model handling `msgs` one after another, as the run loop delivers
      them: the `AppData` object ends at `ApplyAll` of its old count, provided
      no intermediate count leaves the `i32` range. This ties the lemmas about
      `ApplyAll` to the object. */
  method HandleAll(data: AppData, msgs: seq<AppEvent>)
    requires data.Valid()
    requires forall k :: 0 <= k <= |msgs| ==> InI32(ApplyAll(data.count, msgs[..k]))
    modifies data`count
    ensures data.Valid() && data.count == ApplyAll(old(data.count), msgs)
  {
    var i := 0;
    while i < |msgs|
      invariant 0 <= i <= |msgs|
      invariant data.Valid() && data.count == ApplyAll(old(data.count), msgs[..i])
    {
      assert msgs[..i + 1] == msgs[..i] + [msgs[i]];
      ApplyAllSnoc(old(data.count), msgs[..i], msgs[i]);
      assert InI32(ApplyAll(old(data.count), msgs[..i + 1]));
      data.Event(msgs[i]);
      i := i + 1;
    }
    assert msgs[..i] == msgs;
  }
}
