/** The local name[NAME_SIZE] array of the entry loop: how one conversion
    rewrites it, and which C string the "%s" of the entry line reads
    back from it. */
module Names {
  import opened ScmTypes

  function Min(a: int, b: int): int { if a <= b then a else b }

  /** The bytes of a NUL-terminated C string: everything before the first 0. */
  function CStr(s: seq<Byte>): (r: seq<Byte>)
    ensures |r| <= |s| && r == s[..|r|]
    ensures forall j :: 0 <= j < |r| ==> r[j] != 0
    ensures |r| < |s| ==> s[|r|] == 0
  {
    if s == [] || s[0] == 0 then [] else [s[0]] + CStr(s[1..])
  }

  /** A C string ends no later than the first NUL. */
  lemma CStrEndsAtNul(s: seq<Byte>, k: int)
    requires 0 <= k < |s| && s[k] == 0
    ensures |CStr(s)| <= k
  {
    if |CStr(s)| > k {
      assert CStr(s)[k] == s[k];
    }
  }

  /** Two arrays that agree up to and including a NUL hold the same C string. */
  lemma CStrAgree(s: seq<Byte>, t: seq<Byte>, k: int)
    requires 0 <= k < |s| && k < |t| && s[..k + 1] == t[..k + 1] && s[k] == 0
    ensures CStr(s) == CStr(t)
  {
    assert t[k] == s[..k + 1][k];
    CStrEndsAtNul(s, k);
    CStrEndsAtNul(t, k);
    var a, b := |CStr(s)|, |CStr(t)|;
    assert s[a] == s[..k + 1][a] == t[..k + 1][a] == t[a];
    assert t[b] == t[..k + 1][b] == s[..k + 1][b] == s[b];
    assert CStr(s) == s[..a] == s[..k + 1][..a] == t[..k + 1][..a] == t[..a] == CStr(t);
  }

  /** name[] after one iteration of the entry loop: name[0] cleared, the
      transcoder's bytes written from index 0 (at most NAME_SIZE - 1 of
      them, the cbMultiByte the code passes), then name[NAME_SIZE - 1]
      cleared. Bytes past the written ones keep what the array held. */
  function NameBuffer(prev: NameSlot, written: seq<Byte>): (b: NameSlot)
  {
    var k := Min(|written|, NAME_SIZE - 1);
    (written[..k] + prev[0 := 0][k..])[NAME_SIZE - 1 := 0]
  }

  /** The name an entry line shows after converting `written` into `prev`. */
  function NameOf(prev: NameSlot, written: seq<Byte>): seq<Byte>
  {
    CStr(NameBuffer(prev, written))
  }

  /** Whatever the transcoder writes, the name is NUL-terminated inside
      the array: at most NAME_SIZE - 1 bytes. */
  lemma NameFitsArray(prev: NameSlot, written: seq<Byte>)
    ensures |NameOf(prev, written)| <= NAME_SIZE - 1
  {
    CStrEndsAtNul(NameBuffer(prev, written), NAME_SIZE - 1);
  }

  /** A conversion that writes nothing leaves the empty name. */
  lemma NameEmptyWhenNothingWritten(prev: NameSlot)
    ensures NameOf(prev, []) == []
  {
    assert NameBuffer(prev, [])[0] == 0;
  }

  /** A name without NUL bytes that fits, written with its terminator,
      reads back unchanged whatever the array held before. */
  lemma NameRoundTrip(prev: NameSlot, u: seq<Byte>)
    requires forall j :: 0 <= j < |u| ==> u[j] != 0
    requires |u| < NAME_SIZE - 1
    ensures NameOf(prev, u + [0]) == u
  {
    var b := NameBuffer(prev, u + [0]);
    assert b[..|u|] == u;
    assert b[|u|] == 0;
    CStrEndsAtNul(b, |u|);
  }

  /** A name too long for the array is cut to its first NAME_SIZE - 1 bytes. */
  lemma NameTruncated(prev: NameSlot, u: seq<Byte>)
    requires |u| >= NAME_SIZE - 1
    requires forall j :: 0 <= j < NAME_SIZE - 1 ==> u[j] != 0
    ensures NameOf(prev, u) == u[..NAME_SIZE - 1]
  {
    var b := NameBuffer(prev, u);
    assert b[..NAME_SIZE - 1] == u[..NAME_SIZE - 1];
    NameFitsArray(prev, u);
  }

  /** The conversion leaves nothing of the old array contents visible:
      it wrote nothing, or wrote a NUL inside the window, or filled it. */
  predicate Terminates(written: seq<Byte>)
  {
    written == [] || |written| >= NAME_SIZE - 1
    || exists j :: 0 <= j < |written| && written[j] == 0
  }

  /** When the conversion terminates the name, stale bytes from an earlier
      entry (or from the uninitialised stack) never reach the line. */
  lemma NameIgnoresStaleBytes(p: NameSlot, q: NameSlot, written: seq<Byte>)
    requires Terminates(written)
    ensures NameOf(p, written) == NameOf(q, written)
  {
    var bp, bq := NameBuffer(p, written), NameBuffer(q, written);
    if written == [] {
      NameEmptyWhenNothingWritten(p);
      NameEmptyWhenNothingWritten(q);
    } else if |written| >= NAME_SIZE - 1 {
      assert bp[..NAME_SIZE] == bq[..NAME_SIZE];
      CStrAgree(bp, bq, NAME_SIZE - 1);
    } else {
      var j :| 0 <= j < |written| && written[j] == 0;
      assert bp[..j + 1] == written[..j + 1] == bq[..j + 1];
      CStrAgree(bp, bq, j);
    }
  }

  /** A C string runs at least past a NUL-free prefix. */
  lemma {:induction false} CStrCoversNulFree(s: seq<Byte>, k: int)
    requires 0 <= k <= |s| && forall j :: 0 <= j < k ==> s[j] != 0
    ensures |CStr(s)| >= k
    decreases k
  {
    if k > 0 {
      CStrCoversNulFree(s[1..], k - 1);
    }
  }

  /** Otherwise they can. A name whose UTF-8 form is longer than 511
      bytes can leave the transcoder stopped one byte short of the window,
      at a character boundary and with no NUL written: byte 510 then still
      holds what an earlier entry or the stack left there, and it shows. */
  lemma UnterminatedWriteShowsStaleBytes(w: seq<Byte>)
    requires |w| == NAME_SIZE - 2 && forall j :: 0 <= j < |w| ==> w[j] != 0
    ensures exists p: NameSlot, q: NameSlot :: NameOf(p, w) != NameOf(q, w)
  {
    var p: NameSlot := seq(NAME_SIZE, i => if i == NAME_SIZE - 2 then 0x42 else 0);
    var q: NameSlot := seq(NAME_SIZE, i => 0);
    var bp, bq := NameBuffer(p, w), NameBuffer(q, w);
    assert bq[NAME_SIZE - 2] == 0;
    CStrEndsAtNul(bq, NAME_SIZE - 2);
    assert bp[..NAME_SIZE - 2] == w;
    assert forall j :: 0 <= j < NAME_SIZE - 1 ==> bp[j] != 0 by {
      forall j | 0 <= j < NAME_SIZE - 1 ensures bp[j] != 0 {
        if j < NAME_SIZE - 2 {
          assert bp[j] == bp[..NAME_SIZE - 2][j];
        }
      }
    }
    CStrCoversNulFree(bp, NAME_SIZE - 1);
    assert NameOf(p, w) == CStr(bp) && NameOf(q, w) == CStr(bq);
  }

  /** name[] after converting the name of each of `entries` in turn,
      starting from `slot`. */
  function SlotAfter(slot: NameSlot, entries: seq<ServiceEntry>): NameSlot
    decreases |entries|
  {
    if entries == [] then slot
    else NameBuffer(SlotAfter(slot, entries[..|entries| - 1]), entries[|entries| - 1].converted)
  }

  /** One iteration's conversion in place: the first byte cleared, the
      transcoder's output (`written`) stored from index 0 up to the
      NAME_SIZE - 1 bytes it may use, and the last byte cleared. */
  method ConvertName(name: array<Byte>, written: seq<Byte>)
    requires name.Length == NAME_SIZE
    modifies name
    ensures name[..] == NameBuffer(old(name[..]), written)
  {
    ghost var prev: NameSlot := name[..];
    name[0] := 0;
    var k := Min(|written|, NAME_SIZE - 1);
    forall j | 0 <= j < k {
      name[j] := written[j];
    }
    name[NAME_SIZE - 1] := 0;
    assert name[..] == NameBuffer(prev, written);
  }
}
