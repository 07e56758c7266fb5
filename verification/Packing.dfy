/** The addresses of a view, copied by rank 0 into slots of 256 bytes of one
    buffer, broadcast, and read back by every other rank as C strings. */
module Packing {
  const SLOT := 256

  /** What a C string function reads from position `at`. */
  function CString(buf: seq<char>, at: nat): string
    requires at <= |buf|
    decreases |buf| - at
  {
    if at == |buf| || buf[at] == '\0' then [] else [buf[at]] + CString(buf, at + 1)
  }

  predicate NulFree(s: string) {
    forall i :: 0 <= i < |s| ==> s[i] != '\0'
  }

  /** An address that strcpy can put into one slot with its terminator. */
  predicate Fits(addr: string) {
    NulFree(addr) && |addr| < SLOT
  }

  predicate AllFit(addrs: seq<string>) {
    forall i :: 0 <= i < |addrs| ==> Fits(addrs[i])
  }

  /** No copy writes past the end of the buffer. */
  predicate InBounds(addrs: seq<string>) {
    forall i :: 0 <= i < |addrs| ==> NulFree(addrs[i]) && i * SLOT + |addrs[i]| < |addrs| * SLOT
  }

  function Zeros(n: nat): seq<char> {
    seq(n, _ => '\0')
  }

  function Unpacked(buf: seq<char>, n: nat): seq<string>
    requires |buf| == n * SLOT
  {
    seq(n, i requires 0 <= i < n => CString(buf, i * SLOT))
  }

  /** The bytes that strcpy leaves: the string and its terminator, and every
      other byte as it was. */
  function Overwritten(buf: seq<char>, at: nat, s: string): seq<char>
    requires at + |s| < |buf|
  {
    buf[..at] + s + ['\0'] + buf[at + |s| + 1..]
  }

  /** The buffer after the first n copies. */
  function Copied(addrs: seq<string>, n: nat): (buf: seq<char>)
    requires InBounds(addrs) && n <= |addrs|
    ensures |buf| == |addrs| * SLOT
  {
    if n == 0 then Zeros(|addrs| * SLOT) else Overwritten(Copied(addrs, n - 1), (n - 1) * SLOT, addrs[n - 1])
  }

  /** The whole buffer. */
  function Packed(addrs: seq<string>): (buf: seq<char>)
    requires InBounds(addrs)
    ensures |buf| == |addrs| * SLOT
  {
    Copied(addrs, |addrs|)
  }

  method StrCpy(a: array<char>, at: nat, s: string)
    requires at + |s| < a.Length
    modifies a
    ensures a[..] == Overwritten(old(a[..]), at, s)
  {
    for i := 0 to |s|
      invariant a[..at] == old(a[..at])
      invariant a[at..at + i] == s[..i]
      invariant a[at + i..] == old(a[at + i..])
    {
      a[at + i] := s[i];
      assert a[at..at + i + 1] == a[at..at + i] + [s[i]];
    }
    assert a[at..at + |s|] == s[..|s|] == s;
    a[at + |s|] := '\0';
    assert a[at + |s| + 1..] == old(a[at + |s| + 1..]);
    assert a[..] == a[..at] + a[at..at + |s|] + [a[at + |s|]] + a[at + |s| + 1..];
  }

  /** The packing loop of rank 0. */
  method PackAddresses(addrs: seq<string>) returns (packed: array<char>)
    requires InBounds(addrs)
    ensures fresh(packed) && packed[..] == Packed(addrs)
  {
    packed := new char[|addrs| * SLOT](_ => '\0');
    assert packed[..] == Zeros(|addrs| * SLOT);
    for i := 0 to |addrs|
      invariant packed[..] == Copied(addrs, i)
    {
      StrCpy(packed, i * SLOT, addrs[i]);
    }
  }

  /** The loop of the other ranks. */
  method UnpackAddresses(buf: seq<char>, n: nat) returns (addrs: seq<string>)
    requires |buf| == n * SLOT
    ensures addrs == Unpacked(buf, n)
  {
    addrs := [];
    for i := 0 to n
      invariant |addrs| == i && forall j :: 0 <= j < i ==> addrs[j] == CString(buf, j * SLOT)
    {
      addrs := addrs + [CString(buf, i * SLOT)];
    }
  }

  // ----- What is read back -----

  lemma {:induction false} CStringOf(buf: seq<char>, at: nat, s: string)
    requires at + |s| <= |buf| && buf[at..at + |s|] == s && NulFree(s)
    ensures CString(buf, at) == s + CString(buf, at + |s|)
    decreases |s|
  {
    if s != [] {
      assert buf[at] == s[0];
      assert buf[at + 1..at + 1 + |s[1..]|] == s[1..];
      CStringOf(buf, at + 1, s[1..]);
      assert s == [s[0]] + s[1..];
    }
  }

  /** Slots start at different places; the later ones start after the earlier ones end. */
  lemma {:induction false} SlotsInOrder(i: nat, j: nat)
    requires i < j
    ensures i * SLOT + SLOT <= j * SLOT
  {
  }

  lemma {:induction false} OverwrittenAt(buf: seq<char>, at: nat, s: string, p: nat)
    requires at + |s| < |buf| && p < |buf|
    ensures Overwritten(buf, at, s)[p] ==
            if p < at then buf[p] else if p < at + |s| then s[p - at] else if p == at + |s| then '\0' else buf[p]
  {
  }

  /** An address that fits touches its own slot only. */
  lemma {:induction false} CopyStaysInSlot(addrs: seq<string>, i: nat, p: nat)
    requires InBounds(addrs) && i < |addrs| && p < |addrs| * SLOT
    requires Fits(addrs[i]) && (p < i * SLOT || i * SLOT + SLOT <= p)
    ensures Copied(addrs, i + 1)[p] == Copied(addrs, i)[p]
  {
    OverwrittenAt(Copied(addrs, i), i * SLOT, addrs[i], p);
  }

  /** Copies into later slots leave the bytes of slot i. */
  lemma {:induction false} SlotStays(addrs: seq<string>, i: nat, n: nat, p: nat)
    requires InBounds(addrs) && i < n <= |addrs| && i * SLOT <= p < i * SLOT + SLOT
    ensures p < |addrs| * SLOT && Copied(addrs, n)[p] == Copied(addrs, i + 1)[p]
    decreases n
  {
    if i + 1 < |addrs| { SlotsInOrder(i, |addrs|); }
    if n > i + 1 {
      SlotStays(addrs, i, n - 1, p);
      SlotsInOrder(i, n - 1);
      OverwrittenAt(Copied(addrs, n - 1), (n - 1) * SLOT, addrs[n - 1], p);
    }
  }

  /** The bytes of slot i in the end: its address, as far as that goes. */
  lemma {:induction false} SlotHolds(addrs: seq<string>, i: nat, k: nat)
    requires InBounds(addrs) && i < |addrs| && k < SLOT && k <= |addrs[i]|
    ensures i * SLOT + k < |addrs| * SLOT
    ensures Packed(addrs)[i * SLOT + k] == if k < |addrs[i]| then addrs[i][k] else '\0'
  {
    SlotStays(addrs, i, |addrs|, i * SLOT + k);
    OverwrittenAt(Copied(addrs, i), i * SLOT, addrs[i], i * SLOT + k);
  }

  /** What slot i reads back as: the address, or, if that fills the slot, its
      first 256 bytes joined to what the next slot reads back as. */
  function ReadBack(addrs: seq<string>, i: nat): string
    requires i <= |addrs|
    decreases |addrs| - i
  {
    if i == |addrs| then []
    else if |addrs[i]| < SLOT then addrs[i]
    else addrs[i][..SLOT] + ReadBack(addrs, i + 1)
  }

  lemma {:induction false} SlotReadsBack(addrs: seq<string>, i: nat)
    requires InBounds(addrs) && i < |addrs|
    ensures i * SLOT <= |addrs| * SLOT && CString(Packed(addrs), i * SLOT) == ReadBack(addrs, i)
    decreases |addrs| - i
  {
    SlotsInOrder(i, |addrs|);
    if |addrs[i]| < SLOT {
      ShortSlot(addrs, i);
    } else {
      LongSlot(addrs, i);
      SlotReadsBack(addrs, i + 1);
    }
  }

  lemma {:induction false} ShortSlot(addrs: seq<string>, i: nat)
    requires InBounds(addrs) && i < |addrs| && |addrs[i]| < SLOT
    ensures CString(Packed(addrs), i * SLOT) == addrs[i]
  {
    SlotBegins(addrs, i);
    SlotHolds(addrs, i, |addrs[i]|);
    assert addrs[i] + [] == addrs[i];
  }

  lemma {:induction false} LongSlot(addrs: seq<string>, i: nat)
    requires InBounds(addrs) && i < |addrs| && |addrs[i]| >= SLOT
    ensures i + 1 < |addrs|
    ensures CString(Packed(addrs), i * SLOT) == addrs[i][..SLOT] + CString(Packed(addrs), (i + 1) * SLOT)
  {
    SlotBegins(addrs, i);
  }

  /** The part of address i that is in its slot. */
  function Head(addr: string): (head: string)
    ensures |head| <= SLOT && |head| <= |addr|
  {
    if |addr| < SLOT then addr else addr[..SLOT]
  }

  lemma {:induction false} SlotBegins(addrs: seq<string>, i: nat)
    requires InBounds(addrs) && i < |addrs|
    ensures var at, head := i * SLOT, Head(addrs[i]);
            at + |head| <= |addrs| * SLOT && CString(Packed(addrs), at) == head + CString(Packed(addrs), at + |head|)
  {
    var buf, at, head := Packed(addrs), i * SLOT, Head(addrs[i]);
    SlotsInOrder(i, |addrs|);
    forall k | 0 <= k < |head|
      ensures buf[at + k] == head[k]
    {
      SlotHolds(addrs, i, k);
    }
    assert buf[at..at + |head|] == head;
    CStringOf(buf, at, head);
  }

  lemma {:induction false} UnpackedIsReadBack(addrs: seq<string>)
    requires InBounds(addrs)
    ensures |Unpacked(Packed(addrs), |addrs|)| == |addrs|
    ensures forall i :: 0 <= i < |addrs| ==> Unpacked(Packed(addrs), |addrs|)[i] == ReadBack(addrs, i)
  {
    forall i | 0 <= i < |addrs|
      ensures i * SLOT <= |addrs| * SLOT && CString(Packed(addrs), i * SLOT) == ReadBack(addrs, i)
    {
      SlotReadsBack(addrs, i);
    }
  }

  /** Address i fits into its slot, or goes on just as the next address reads. */
  predicate Continues(addrs: seq<string>, i: nat)
    requires i < |addrs|
  {
    |addrs[i]| < SLOT || (i + 1 < |addrs| && addrs[i][SLOT..] == addrs[i + 1])
  }

  lemma {:induction false} ContinuesReadsBack(addrs: seq<string>, i: nat)
    requires i < |addrs| && forall j :: i <= j < |addrs| ==> Continues(addrs, j)
    ensures ReadBack(addrs, i) == addrs[i]
    decreases |addrs| - i
  {
    assert Continues(addrs, i);
    if |addrs[i]| >= SLOT {
      ContinuesReadsBack(addrs, i + 1);
      assert addrs[i] == addrs[i][..SLOT] + addrs[i][SLOT..];
    }
  }

  /** The other ranks read the list that rank 0 packed exactly when every address
      that fills its slot happens to go on as the next one. */
  lemma {:induction false} RoundTripIff(addrs: seq<string>)
    requires InBounds(addrs)
    ensures Unpacked(Packed(addrs), |addrs|) == addrs <==> forall i :: 0 <= i < |addrs| ==> Continues(addrs, i)
  {
    var back := Unpacked(Packed(addrs), |addrs|);
    UnpackedIsReadBack(addrs);
    if forall i :: 0 <= i < |addrs| ==> Continues(addrs, i) {
      forall i | 0 <= i < |addrs|
        ensures back[i] == addrs[i]
      {
        ContinuesReadsBack(addrs, i);
      }
      assert back == addrs;
    }
    if back == addrs {
      forall i | 0 <= i < |addrs|
        ensures Continues(addrs, i)
      {
        assert back[i] == ReadBack(addrs, i);
        if |addrs[i]| >= SLOT { FilledSlot(addrs, i); }
      }
    }
  }

  lemma {:induction false} FilledSlot(addrs: seq<string>, i: nat)
    requires InBounds(addrs) && i < |addrs| && |addrs[i]| >= SLOT && ReadBack(addrs, i) == addrs[i]
    requires i + 1 < |addrs| ==> ReadBack(addrs, i + 1) == addrs[i + 1]
    ensures Continues(addrs, i)
  {
    assert i + 1 < |addrs|;
    assert (addrs[i][..SLOT] + addrs[i + 1])[SLOT..] == addrs[i + 1];
  }

  /** Any list of NUL-free addresses of at most 255 bytes goes into a buffer of 256
      bytes each, and every other rank reads the same list in the same order. */
  lemma {:induction false} RoundTrip(addrs: seq<string>)
    requires forall i :: 0 <= i < |addrs| ==> NulFree(addrs[i]) && |addrs[i]| <= 255
    ensures AllFit(addrs) && InBounds(addrs)
    ensures |Packed(addrs)| == 256 * |addrs| && Unpacked(Packed(addrs), |addrs|) == addrs
  {
    forall i | 0 <= i < |addrs|
      ensures i * SLOT + |addrs[i]| < |addrs| * SLOT
    {
      SlotsInOrder(i, |addrs|);
    }
    RoundTripIff(addrs);
  }
}
