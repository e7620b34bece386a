/** Numeric lists of the parser, word by word: a header followed by one slot per value,
    compacted in place over its own header. */
module UserList {

  /** One 8-byte word of list memory. */
  datatype Word = Fp(value: real) | Size(n: nat) | Kind | Pointer(at: nat)

  /** union scpi_type_val: as wide as the string accumulator, the number comes first. */
  datatype Val = Val(w0: Word, w1: Word, w2: Word, w3: Word)

  const HEADER := 4   // type, len, max and the pointer to the slots
  const SLOT := 4     // sizeof(union scpi_type_val)
  const NRF_CHUNK := 256

  class List {
    const mem: array<Word>

    ghost predicate Valid()
      reads mem
    {
      && mem.Length == HEADER + SLOT * NRF_CHUNK
      && mem[0] == Kind && mem[1].Size? && mem[1].n <= NRF_CHUNK && mem[2] == Size(NRF_CHUNK) && mem[3] == Pointer(HEADER)
      && forall i :: 0 <= i < mem[1].n ==> mem[HEADER + SLOT * i].Fp?
    }

    ghost function Contents(): seq<real>
      requires Valid()
      reads mem
    {
      seq(mem[1].n, i requires Valid() && 0 <= i < mem[1].n reads mem => mem[HEADER + SLOT * i].value)
    }

    /** scpi_core_nrf_list on a scalar: a list of that value and the next. */
    constructor (first: Val, second: Val)
      requires first.w0.Fp? && second.w0.Fp?
      ensures Valid() && fresh(mem) && Contents() == [first.w0.value, second.w0.value]
    {
      mem := new Word[HEADER + SLOT * NRF_CHUNK](_ => Size(0));
      new;
      Begin(first);
      Append(second);
    }

    /** The header and the first slot. */
    method Begin(first: Val)
      requires mem.Length == HEADER + SLOT * NRF_CHUNK && first.w0.Fp?
      modifies mem
      ensures Valid() && Contents() == [first.w0.value]
    {
      mem[0] := Kind;
      mem[1] := Size(1);
      mem[2] := Size(NRF_CHUNK);
      mem[3] := Pointer(HEADER);
      mem[HEADER] := first.w0;
      mem[HEADER + 1] := first.w1;
      mem[HEADER + 2] := first.w2;
      mem[HEADER + 3] := first.w3;
      assert Valid();
      assert |Contents()| == 1 && Contents()[0] == first.w0.value;
    }

    method Store(i: nat, v: Val)
      requires Valid() && i < NRF_CHUNK && v.w0.Fp?
      modifies mem
      ensures forall k :: 0 <= k < mem.Length && !(HEADER + SLOT * i <= k < HEADER + SLOT * (i + 1)) ==> mem[k] == old(mem[k])
      ensures mem[HEADER + SLOT * i] == v.w0 && Valid()
    {
      var at := HEADER + SLOT * i;
      mem[at], mem[at + 1], mem[at + 2], mem[at + 3] := v.w0, v.w1, v.w2, v.w3;
    }

    /** scpi_core_nrf_list on a list with room. */
    method Append(v: Val)
      requires Valid() && |Contents()| < NRF_CHUNK && v.w0.Fp?
      modifies mem
      ensures Valid() && Contents() == old(Contents()) + [v.w0.value]
    {
      var len := mem[1].n;
      ghost var before := Contents();
      Store(len, v);
      assert forall i :: 0 <= i < len ==> mem[HEADER + SLOT * i].value == before[i];
      mem[1] := Size(len + 1);
      assert Contents() == before + [v.w0.value];
    }

    /** scpi_input_fp_block_copy: slot after slot moves down over the header and the
        slots already read; `block` words from the start are the values in order. */
    method BlockCopy() returns (len: nat)
      requires Valid()
      modifies mem
      ensures len == |old(Contents())| <= mem.Length
      ensures forall k :: 0 <= k < len ==> mem[k] == Fp(old(Contents())[k])
      ensures forall k :: len <= k < mem.Length ==> mem[k] == old(mem[k])
    {
      var val := mem[3].at;
      len := mem[1].n;
      ghost var contents := Contents();
      var dp := 0;
      while dp < len
        invariant 0 <= dp <= len == |contents| <= NRF_CHUNK && val == HEADER + SLOT * dp
        invariant forall k :: 0 <= k < dp ==> mem[k] == Fp(contents[k])
        invariant forall k :: dp <= k < mem.Length ==> mem[k] == old(mem[k])
      {
        assert val > dp && mem[val] == Fp(contents[dp]);
        mem[dp] := mem[val];
        dp := dp + 1;
        val := val + SLOT;
      }
    }
  }

  /** A literal list of 2 to 256 numbers, built by the parser and then handed to the
      device as a block: the same numbers in the same order. */
  method ParseBlock(values: seq<Val>) returns (len: nat, block: array<Word>)
    requires 2 <= |values| <= NRF_CHUNK && forall i :: 0 <= i < |values| ==> values[i].w0.Fp?
    ensures len == |values| <= block.Length && fresh(block)
    ensures forall i :: 0 <= i < |values| ==> block[i] == values[i].w0
  {
    var list := new List(values[0], values[1]);
    var n := 2;
    while n < |values|
      invariant 2 <= n <= |values| && list.Valid() && |list.Contents()| == n && fresh(list.mem)
      invariant forall i :: 0 <= i < n ==> list.Contents()[i] == values[i].w0.value
    {
      list.Append(values[n]);
      n := n + 1;
    }
    len := list.BlockCopy();
    block := list.mem;
  }
}
