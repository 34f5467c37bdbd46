/** The `io.Writer` the group is written to. A write call either accepts all
    of its data or fails; which calls fail is fixed in advance by the set
    `failing` of call numbers, so every failure pattern can be stated. */
module Sink {
  import opened Errors
  import opened Text

  class Writer {
    /** Everything the writer has accepted so far. */
    var out: string
    /** How many write calls have been made so far (the next call's number). */
    var calls: nat
    /** The numbers of the calls that fail. */
    const failing: set<nat>

    constructor (failing: set<nat>)
      ensures out == [] && calls == 0 && this.failing == failing
    {
      out := [];
      calls := 0;
      this.failing := failing;
    }

    /** `w.Write(data)` and `io.WriteString(w, data)`. */
    method Write(data: string) returns (status: Status)
      modifies this
      ensures calls == old(calls) + 1
      ensures old(calls) in failing ==> status == Failed(WriteError(old(calls))) && out == old(out)
      ensures old(calls) !in failing ==> status == Ok && out == old(out) + data
    {
      if calls in failing {
        status := Failed(WriteError(calls));
      } else {
        status := Ok;
        out := out + data;
      }
      calls := calls + 1;
    }
  }

  /** What a sequence of write calls did: the text accepted, the number of
      calls made, and the error returned. */
  datatype Outcome = Outcome(emitted: string, calls: nat, status: Status)

  /** Writes `pieces` one call each, starting at call number `first`, and
      stops at the first call that fails. */
  function Emit(pieces: seq<string>, first: nat, failing: set<nat>): (o: Outcome)
    ensures o.status.Ok? <==> forall n :: first <= n < first + |pieces| ==> n !in failing
    ensures o.status.Ok? ==> o.calls == |pieces| && o.emitted == Concat(pieces)
    ensures o.status.Failed? ==>
      && 1 <= o.calls <= |pieces|
      && first + o.calls - 1 in failing
      && (forall n :: first <= n < first + o.calls - 1 ==> n !in failing)
      && o.status.error == WriteError(first + o.calls - 1)
      && o.emitted == Concat(pieces[..o.calls - 1])
  {
    if pieces == [] then Outcome([], 0, Ok)
    else if first in failing then Outcome([], 1, Failed(WriteError(first)))
    else
      var rest := Emit(pieces[1..], first + 1, failing);
      assert rest.status.Failed? ==> pieces[..rest.calls][1..] == pieces[1..][..rest.calls - 1];
      Outcome(pieces[0] + rest.emitted, 1 + rest.calls, rest.status)
  }

  /** Three writes in a row, as `write` makes them: each is attempted only if
      the ones before it succeeded, and the first failure is the result. */
  lemma EmitThree(a: string, b: string, c: string, first: nat, failing: set<nat>)
    ensures var o := Emit([a, b, c], first, failing);
      && (first in failing ==> o == Outcome([], 1, Failed(WriteError(first))))
      && (first !in failing && first + 1 in failing ==> o == Outcome(a, 2, Failed(WriteError(first + 1))))
      && (first !in failing && first + 1 !in failing && first + 2 in failing ==>
            o == Outcome(a + b, 3, Failed(WriteError(first + 2))))
      && (first !in failing && first + 1 !in failing && first + 2 !in failing ==>
            o == Outcome(a + b + c, 3, Ok))
  {
    assert [a, b, c][1..] == [b, c] && [b, c][1..] == [c] && [c][1..] == [];
    ConcatOfFew(a, b, c);
  }
}
