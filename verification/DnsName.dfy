/** Names in a DNS question (dnsblast.c:39-87): the dotted string, its labels, its
    wire form (section 3.1 of RFC 1035), and encode_name with its space budget. */
module DnsName {
  import opened Octets

  const DOT: Byte := 46
  const UCHAR_MAX: int := 255
  /** One more than the largest size_t. */
  const SIZE_MOD: int := 0x1_0000_0000_0000_0000

  /** A C string without its terminator. */
  predicate CString(name: Bytes) {
    forall i :: 0 <= i < |name| ==> name[i] != 0
  }

  /** name[i], reading the terminator behind the last character. */
  function CharAt(name: Bytes, i: nat): Byte
    requires i <= |name|
  {
    if i < |name| then name[i] else 0
  }

  /** The length of the first label of name[from..]. */
  function LabelEnd(name: Bytes, from: nat): (r: nat)
    requires from <= |name|
    ensures from + r <= |name|
    ensures forall i :: from <= i < from + r ==> name[i] != DOT
    ensures from + r < |name| ==> name[from + r] == DOT
    decreases |name| - from
  {
    if from == |name| || name[from] == DOT then 0 else 1 + LabelEnd(name, from + 1)
  }

  datatype Labels = End | Label(first: Bytes, rest: Labels)
  {
    function Count(): nat {
      if End? then 0 else 1 + rest.Count()
    }

    /** Every label has between min and max bytes. */
    predicate Sized(min: nat, max: nat) {
      End? || (min <= |first| <= max && rest.Sized(min, max))
    }
  }

  /** The labels of name[from..]. There is always one, possibly empty. */
  function Split(name: Bytes, from: nat): (ls: Labels)
    requires from <= |name|
    ensures ls.Label?
    decreases |name| - from
  {
    var n := LabelEnd(name, from);
    Label(name[from..from + n], if from + n == |name| then End else Split(name, from + n + 1))
  }

  /** Labels joined by dots. */
  function Join(ls: Labels): Bytes
    requires ls.Label?
  {
    if ls.rest.End? then ls.first else ls.first + ([DOT] + Join(ls.rest))
  }

  /** Splitting loses nothing. */
  lemma {:induction false} JoinSplit(name: Bytes, from: nat)
    requires from <= |name|
    ensures Join(Split(name, from)) == name[from..]
    decreases |name| - from
  {
    var n := LabelEnd(name, from);
    if from + n == |name| {
      assert name[from..from + n] == name[from..];
    } else {
      var tail := name[from + n + 1..];
      JoinSplit(name, from + n + 1);
      assert name[from..] == name[from..from + n] + ([DOT] + tail);
    }
  }

  /** Length-prefixed labels and the closing zero. */
  function Wire(ls: Labels): (w: Bytes)
    requires ls.Sized(0, UCHAR_MAX)
    ensures 1 <= |w|
  {
    if ls.End? then [0] else [|ls.first|] + ls.first + Wire(ls.rest)
  }

  /** The wire form is two bytes longer than the dotted name. */
  lemma {:induction false} WireLength(name: Bytes, from: nat)
    requires from <= |name| && Split(name, from).Sized(0, UCHAR_MAX)
    ensures |Wire(Split(name, from))| == |name| - from + 2
    decreases |name| - from
  {
    var n := LabelEnd(name, from);
    if from + n < |name| {
      WireLength(name, from + n + 1);
    }
  }

  /** find_name_component_len; EOF is `!ok`. */
  method FindNameComponentLen(name: Bytes, current: nat) returns (ok: bool, pos: nat)
    requires current <= |name| && CString(name)
    ensures ok <==> LabelEnd(name, current) <= UCHAR_MAX
    ensures ok ==> pos == LabelEnd(name, current)
  {
    pos := 0;
    while CharAt(name, current + pos) != DOT && CharAt(name, current + pos) != 0
      invariant pos <= LabelEnd(name, current) && pos <= UCHAR_MAX
      invariant LabelEnd(name, current) == pos + LabelEnd(name, current + pos)
      decreases |name| - current - pos
    {
      if pos >= UCHAR_MAX {
        return false, pos;
      }
      pos := pos + 1;
    }
    ok := true;
  }

  // ---------------------------------------------------------------- the space budget

  /** What encode_name leaves of encoded_size after a label of n bytes: as coded it
      takes off n - 1, in size_t arithmetic; it wrote n + 1. */
  function Budget(coded: bool, size: nat, n: nat): nat
    requires n < size < SIZE_MOD
  {
    if coded then (size - n + 1) % SIZE_MOD else size - n - 1
  }

  /** encode_name's checks, label by label; `size` is encoded_size once the closing
      zero was set aside. */
  predicate Fits(coded: bool, size: nat, ls: Labels)
    requires size < SIZE_MOD
    decreases ls
  {
    ls.End? ||
    (|ls.first| <= UCHAR_MAX && size > |ls.first| && Fits(coded, Budget(coded, size, |ls.first|), ls.rest))
  }

  lemma {:induction false} FitsSized(coded: bool, size: nat, ls: Labels)
    requires size < SIZE_MOD && Fits(coded, size, ls)
    ensures ls.Sized(0, UCHAR_MAX)
    decreases ls
  {
    if ls.Label? {
      FitsSized(coded, Budget(coded, size, |ls.first|), ls.rest);
    }
  }

  /** k labels of one byte each. */
  function Singles(k: nat): Labels {
    if k == 0 then End else Label([97], Singles(k - 1))
  }

  /** The guarantee is tight: offered 3 bytes, the coded budget lets any number of
      one-byte labels through. */
  lemma {:induction false} CodedBudgetOverrun(k: nat)
    requires 1 <= k
    ensures Fits(true, 2, Singles(k)) && Singles(k).Sized(0, UCHAR_MAX)
    ensures |Wire(Singles(k))| == 3 + 2 * (Singles(k).Count() - 1)
  {
    if k > 1 {
      CodedBudgetOverrun(k - 1);
    } else {
      assert Singles(0) == End;
    }
  }

  lemma WireCons(ls: Labels)
    requires ls.Label? && ls.Sized(0, UCHAR_MAX)
    ensures |Wire(ls)| == 1 + |ls.first| + |Wire(ls.rest)|
  {
  }

  /** With the intended deduction the checks pass iff every label fits a length
      byte and the whole wire form fits the space offered. */
  lemma {:induction false} IntendedBudgetExact(size: nat, ls: Labels)
    requires size < SIZE_MOD && ls.Label?
    ensures Fits(false, size, ls) <==> ls.Sized(0, UCHAR_MAX) && |Wire(ls)| <= size + 1
    decreases ls
  {
    if ls.Sized(0, UCHAR_MAX) {
      WireCons(ls);
    }
    if |ls.first| <= UCHAR_MAX && size > |ls.first| {
      var left := Budget(false, size, |ls.first|);
      assert Fits(false, size, ls) <==> Fits(false, left, ls.rest);
      if ls.rest.Label? {
        IntendedBudgetExact(left, ls.rest);
      } else {
        assert Wire(ls.rest) == [0];
      }
    }
  }

  /** The bytes of all labels. */
  function Letters(ls: Labels): nat {
    if ls.End? then 0 else |ls.first| + Letters(ls.rest)
  }

  function Empties(ls: Labels): nat {
    if ls.End? then 0 else (if ls.first == [] then 1 else 0) + Empties(ls.rest)
  }

  /** Given enough space, encoding fails iff some label exceeds 255 bytes. Enough is
      the wire form itself, as long as the byte that every empty label adds to the
      budget does not take it past size_t. */
  lemma {:induction false} FailsOnlyOnLongLabels(size: nat, ls: Labels)
    requires Letters(ls) + 1 <= size && size + Empties(ls) < SIZE_MOD
    ensures Fits(true, size, ls) <==> ls.Sized(0, UCHAR_MAX)
    decreases ls
  {
    if ls.Label? && |ls.first| <= UCHAR_MAX {
      assert Budget(true, size, |ls.first|) == size - |ls.first| + 1;
      FailsOnlyOnLongLabels(size - |ls.first| + 1, ls.rest);
    }
  }

  lemma {:induction false} SplitSized(name: Bytes, from: nat)
    requires from <= |name| <= UCHAR_MAX
    ensures Split(name, from).Sized(0, UCHAR_MAX)
    decreases |name| - from
  {
    var n := LabelEnd(name, from);
    if from + n < |name| {
      SplitSized(name, from + n + 1);
    }
  }

  lemma {:induction false} SplitSizes(name: Bytes, from: nat)
    requires from <= |name|
    ensures Letters(Split(name, from)) + Split(name, from).Count() == |name| - from + 1
    decreases |name| - from
  {
    var n := LabelEnd(name, from);
    if from + n < |name| {
      SplitSizes(name, from + n + 1);
    }
  }

  /** The bytes encode_name writes before it succeeds or gives up. */
  function Written(size: nat, ls: Labels): nat
    requires size < SIZE_MOD
    decreases ls
  {
    if ls.End? then 1
    else if |ls.first| <= UCHAR_MAX && size > |ls.first| then
      1 + |ls.first| + Written(Budget(true, size, |ls.first|), ls.rest)
    else 0
  }

  /** Never more than strlen + 2, and exactly that many on success. */
  lemma {:induction false} WrittenBound(size: nat, name: Bytes, from: nat)
    requires from <= |name| && size < SIZE_MOD
    ensures Written(size, Split(name, from)) <= |name| - from + 2
    ensures Written(size, Split(name, from)) == |name| - from + 2 <==> Fits(true, size, Split(name, from))
    decreases |name| - from
  {
    var n := LabelEnd(name, from);
    if n <= UCHAR_MAX && size > n && from + n < |name| {
      WrittenBound(Budget(true, size, n), name, from + n + 1);
    }
  }

  /** What the coded budget guarantees of every call, failing ones too: at most
      2 * (labels - 1) bytes more than the size + 1 that the caller offered. */
  lemma {:induction false} CodedBudgetGuarantee(size: nat, ls: Labels)
    requires size < SIZE_MOD && ls.Label?
    ensures Written(size, ls) <= size + 1 + 2 * (ls.Count() - 1)
    decreases ls
  {
    if |ls.first| <= UCHAR_MAX && size > |ls.first| && ls.rest.Label? {
      CodedBudgetGuarantee(Budget(true, size, |ls.first|), ls.rest);
    }
  }

  /** On success what is written is the wire form. */
  lemma {:induction false} WrittenIsWire(size: nat, ls: Labels)
    requires size < SIZE_MOD && Fits(true, size, ls)
    ensures ls.Sized(0, UCHAR_MAX) && Written(size, ls) == |Wire(ls)|
    decreases ls
  {
    FitsSized(true, size, ls);
    if ls.Label? {
      WrittenIsWire(Budget(true, size, |ls.first|), ls.rest);
    }
  }

  /** A caller that offers strlen + 2 bytes never sees more written than it offered; for
      one that offers less, every success exceeds the offer. */
  lemma OfferRespected(encodedSize: nat, name: Bytes)
    requires 0 < encodedSize < SIZE_MOD
    ensures |name| + 2 <= encodedSize ==> Written(encodedSize - 1, Split(name, 0)) <= encodedSize
    ensures encodedSize < |name| + 2 && Fits(true, encodedSize - 1, Split(name, 0)) ==>
              encodedSize < Written(encodedSize - 1, Split(name, 0))
  {
    WrittenBound(encodedSize - 1, name, 0);
  }

  // ---------------------------------------------------------------- encode_name

  /** The bytes from pos to limit are the encoder's; those outside stay. */
  twostate predicate KeepsOutside(a: array<Byte>, pos: nat, limit: nat)
    requires pos <= limit <= a.Length
    reads a
  {
    a[..pos] == old(a[..pos]) && a[limit..] == old(a[limit..])
  }

  /** One label behind its length. */
  method WriteLabel(a: array<Byte>, ghost pos: nat, at: nat, ghost limit: nat, name: Bytes, from: nat, n: nat)
    requires n <= UCHAR_MAX && from + n <= |name| && pos <= at && at + 1 + n <= limit <= a.Length
    modifies a
    ensures a[pos..at + 1 + n] == old(a[pos..at]) + ([n] + name[from..from + n])
    ensures KeepsOutside(a, pos, limit)
  {
    a[at] := n;
    forall i | 0 <= i < n {
      a[at + 1 + i] := name[from + i];
    }
    ghost var out := old(a[pos..at]) + ([n] + name[from..from + n]);
    forall k | 0 <= k < |out|
      ensures a[pos + k] == out[k]
    {
      if k < at - pos {
        assert out[k] == old(a[pos..at])[k] == old(a[pos + k]);
      } else if k > at - pos {
        assert out[k] == name[from..from + n][k - (at - pos) - 1];
      }
    }
    assert a[pos..at + 1 + n] == out;
  }

  /** `written` is out, and the labels `ls` are still to be written. */
  ghost predicate Progress(all: Labels, written: Bytes, ls: Labels) {
    ls.Sized(0, UCHAR_MAX) ==> all.Sized(0, UCHAR_MAX) && Wire(all) == written + Wire(ls)
  }

  lemma ProgressStart(all: Labels, written: Bytes)
    requires written == []
    ensures Progress(all, written, all)
  {
    if all.Sized(0, UCHAR_MAX) {
      assert written + Wire(all) == Wire(all);
    }
  }

  lemma ProgressStep(all: Labels, written: Bytes, name: Bytes, from: nat, n: nat, written': Bytes)
    requires from <= |name| && n == LabelEnd(name, from) <= UCHAR_MAX
    requires Progress(all, written, Split(name, from))
    requires written' == written + ([n] + name[from..from + n])
    ensures Progress(all, written', Split(name, from).rest)
  {
    var ls := Split(name, from);
    if ls.rest.Sized(0, UCHAR_MAX) {
      assert written + ([n] + ls.first + Wire(ls.rest)) == written + ([n] + ls.first) + Wire(ls.rest);
    }
  }

  /** One round of encode_name's loop: check a label against the budget and write it.
      `ls` are the labels still to come, `rest` those behind the first. */
  method EncodeLabel(a: array<Byte>, ghost pos: nat, encoded: nat, ghost limit: nat, size: nat, name: Bytes,
                     current: nat, ghost all: Labels, ghost out: Bytes, ghost ls: Labels)
    returns (ok: bool, n: nat, size': nat, ghost out': Bytes, ghost rest: Labels)
    requires current <= |name| && CString(name) && size < SIZE_MOD
    requires pos <= encoded && encoded + Written(size, ls) <= limit <= a.Length
    requires out == a[pos..encoded] && ls == Split(name, current) && Progress(all, out, ls)
    modifies a
    ensures KeepsOutside(a, pos, limit) && size' < SIZE_MOD
    ensures !ok ==> !Fits(true, size, ls)
    ensures ok ==> encoded + 1 + n + Written(size', rest) <= limit
    ensures ok ==> current + n <= |name| && out' == a[pos..encoded + 1 + n] && Progress(all, out', rest)
    ensures ok ==> (Fits(true, size, ls) <==> Fits(true, size', rest))
    ensures ok ==> if current + n == |name| then rest == End
                   else CharAt(name, current + n) == DOT && rest == Split(name, current + n + 1)
  {
    ok, n := FindNameComponentLen(name, current);
    size', out', rest := size, out, ls.rest;
    if !ok || size <= n {
      ok := false;
      return;
    }
    WriteLabel(a, pos, encoded, limit, name, current, n);
    out' := a[pos..encoded + 1 + n];
    ProgressStep(all, out, name, current, n, out');
    size' := (size - n + 1) % SIZE_MOD;
  }

  /** The closing zero completes the wire form. */
  method CloseName(a: array<Byte>, ghost pos: nat, encoded: nat, ghost limit: nat, ghost all: Labels, ghost out: Bytes)
    requires pos <= encoded < limit <= a.Length
    requires out == a[pos..encoded] && Progress(all, out, End)
    modifies a
    ensures all.Sized(0, UCHAR_MAX) && a[pos..encoded + 1] == Wire(all)
    ensures KeepsOutside(a, pos, limit)
  {
    a[encoded] := 0;
    assert a[pos..encoded + 1] == out + [0];
  }

  /** A round, and the closing zero if it wrote the last label: the cursors move on. */
  method EncodeRound(a: array<Byte>, ghost pos: nat, encoded: nat, ghost limit: nat, size: nat, name: Bytes,
                     current: nat, ghost all: Labels, ghost out: Bytes, ghost ls: Labels)
    returns (ok: bool, done: bool, encoded': nat, current': nat, size': nat, ghost out': Bytes, ghost ls': Labels)
    requires current <= |name| && CString(name) && size < SIZE_MOD
    requires pos <= encoded && encoded + Written(size, ls) <= limit <= a.Length
    requires out == a[pos..encoded] && ls == Split(name, current) && Progress(all, out, ls)
    modifies a
    ensures KeepsOutside(a, pos, limit) && size' < SIZE_MOD
    ensures !ok ==> !Fits(true, size, ls)
    ensures ok ==> (Fits(true, size, ls) <==> done || Fits(true, size', ls'))
    ensures ok && done ==> encoded' == encoded + (|name| - current) + 2 <= limit
    ensures ok && done ==> all.Sized(0, UCHAR_MAX) && a[pos..encoded'] == Wire(all)
    ensures ok && !done ==> encoded' - encoded == current' - current > 0 && encoded' + Written(size', ls') <= limit
    ensures ok && !done ==> current' <= |name| && ls' == Split(name, current')
    ensures ok && !done ==> out' == a[pos..encoded'] && Progress(all, out', ls')
  {
    done := false;
    var n;
    ok, n, size', out', ls' := EncodeLabel(a, pos, encoded, limit, size, name, current, all, out, ls);
    encoded', current' := encoded + 1 + n, current + n + 1;
    if ok && CharAt(name, current + n) == 0 {
      CloseName(a, pos, encoded', limit, all, out');
      encoded' := encoded' + 1;
      done := true;
    }
  }

  /** encode_name's loop over the labels. */
  method EncodeLabels(a: array<Byte>, pos: nat, size0: nat, name: Bytes, ghost all: Labels, ghost limit: nat)
    returns (ok: bool, end: nat)
    requires size0 < SIZE_MOD && CString(name) && all == Split(name, 0)
    requires pos + Written(size0, all) <= limit <= a.Length
    modifies a
    ensures ok <==> Fits(true, size0, all)
    ensures ok ==> all.Sized(0, UCHAR_MAX) && end == pos + |name| + 2 <= limit && a[pos..end] == Wire(all)
    ensures !ok ==> end == pos
    ensures KeepsOutside(a, pos, limit)
  {
    var size: nat, encoded: nat, current: nat := size0, pos, 0;
    ghost var out: Bytes, ls := [], all;
    ProgressStart(all, out);
    while true
      invariant current <= |name| && encoded == pos + current && size < SIZE_MOD
      invariant encoded + Written(size, ls) <= limit
      invariant ls == Split(name, current) && out == a[pos..encoded] && Progress(all, out, ls)
      invariant Fits(true, size0, all) <==> Fits(true, size, ls)
      invariant KeepsOutside(a, pos, limit)
      decreases |name| - current
    {
      var fits, done;
      fits, done, encoded, current, size, out, ls :=
        EncodeRound(a, pos, encoded, limit, size, name, current, all, out, ls);
      if !fits {
        return false, pos;
      }
      if done {
        return true, encoded;
      }
    }
  }

  /** encode_name, writing into a[pos..]. The caller's array must have room for what it
      writes, since the coded budget alone does not guarantee it. */
  method EncodeName(a: array<Byte>, pos: nat, encodedSize: nat, name: Bytes) returns (ok: bool, end: nat)
    requires 0 < encodedSize < SIZE_MOD
    requires CString(name) && pos + Written(encodedSize - 1, Split(name, 0)) <= a.Length
    modifies a
    ensures ok <==> Fits(true, encodedSize - 1, Split(name, 0))
    ensures ok ==> Split(name, 0).Sized(0, UCHAR_MAX)
                   && end == pos + |name| + 2 <= a.Length && a[pos..end] == Wire(Split(name, 0))
    ensures !ok ==> end == pos
    ensures KeepsOutside(a, pos, pos + Written(encodedSize - 1, Split(name, 0)))
  {
    ghost var all := Split(name, 0);
    ok, end := EncodeLabels(a, pos, encodedSize - 1, name, all, pos + Written(encodedSize - 1, all));
  }
}
