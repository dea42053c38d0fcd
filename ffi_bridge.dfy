/**
 The foreign-call boundary's ownership protocol: strings handed to the foreign
 caller are allocated here, NUL-terminated, and stay allocated until the caller
 releases them. The heap is an allocation table from addresses to the blocks
 they hold.
 */
module FfiBridge {
  import opened Wrappers

  /** A `*mut c_char` as the foreign side holds it. */
  datatype Ptr = Null | Addr(addr: nat)

  /** `CString::new` refuses a string with an interior NUL at character `index`. */
  datatype NulError = NulError(index: nat)

  const Nul: char := '\0'

  /** What `get_version` reports when the build did not record a version. */
  const UnknownVersion: string := "unknown"

  /**
   The length `CStr::to_bytes_with_nul` finds by scanning for the first NUL,
   the NUL included, counted in characters.
   */
  function CStrLenWithNul(chars: seq<char>): (n: nat)
    requires Nul in chars
    ensures 0 < n <= |chars| && chars[n - 1] == Nul
    ensures forall k :: 0 <= k < n - 1 ==> chars[k] != Nul
  {
    if chars[0] == Nul then 1 else 1 + CStrLenWithNul(chars[1..])
  }

  /** The shape of a block `CString` allocates: the text, then exactly one NUL, at the end. */
  predicate IsCStringBlock(b: seq<char>) {
    |b| > 0 && b[|b| - 1] == Nul && Nul !in b[..|b| - 1]
  }

  /**
   Release reconstructs the exact allocation: the scan for the NUL of a block in
   `CString` shape measures the whole block, terminator included.
   */
  lemma ScanMeasuresWholeBlock(b: seq<char>)
    requires IsCStringBlock(b)
    ensures CStrLenWithNul(b) == |b|
  {
  }

  /** A string without NUL, terminated by one, is a block in `CString` shape. */
  lemma TerminatedIsCStringBlock(s: string)
    requires Nul !in s
    ensures IsCStringBlock(s + [Nul])
  {
  }

  class ForeignHeap {
    /** The live blocks handed to the foreign side, by address. */
    var blocks: map<nat, seq<char>>
    /** An address above every one in use. */
    var next: nat

    ghost predicate Valid()
      reads this
    {
      forall a :: a in blocks ==> a < next && IsCStringBlock(blocks[a])
    }

    constructor ()
      ensures Valid() && blocks == map[]
    {
      blocks := map[];
      next := 0;
    }

    /**
     `to_c_str`: copies `s` into a fresh NUL-terminated block and forgets it, so
     that only an explicit release frees it. A string with an interior NUL makes
     `CString::new(..).unwrap()` panic, reported here as `Err`.
     */
    method ToCStr(s: string) returns (r: Result<Ptr, NulError>)
      requires Valid()
      modifies this
      ensures Valid()
      ensures Nul in s ==> r.Err? && r.error.index < |s| && s[r.error.index] == Nul
                           && (forall k :: 0 <= k < r.error.index ==> s[k] != Nul)
                           && blocks == old(blocks)
      ensures Nul !in s ==> r.Ok? && r.value.Addr? && r.value.addr !in old(blocks)
                            && blocks == old(blocks)[r.value.addr := s + [Nul]]
    {
      if Nul in s {
        r := Err(NulError(CStrLenWithNul(s) - 1));
        return;
      }
      TerminatedIsCStringBlock(s);
      r := Ok(Addr(next));
      blocks := blocks[next := s + [Nul]];
      next := next + 1;
    }

    /** `get_version`: the build's version, or "unknown", as a foreign string. */
    method GetVersion(pkgVersion: Option<string>) returns (r: Result<Ptr, NulError>)
      requires Valid()
      modifies this
      ensures Valid()
      ensures var text := if pkgVersion.Some? then pkgVersion.value else UnknownVersion;
              (Nul in text ==> r.Err? && blocks == old(blocks)) &&
              (Nul !in text ==> r.Ok? && r.value.Addr? && r.value.addr !in old(blocks)
                                && blocks == old(blocks)[r.value.addr := text + [Nul]])
    {
      var text := if pkgVersion.Some? then pkgVersion.value else UnknownVersion;
      r := ToCStr(text);
    }

    /**
     `free_c_char_mem`: a null pointer is tolerated and changes nothing; any other
     pointer must be a live block handed out here (releasing twice, or a foreign
     pointer, is undefined), and its block is reclaimed with the length the NUL
     scan finds, which is exactly the length it was allocated with.
     */
    method FreeCCharMem(c: Ptr)
      requires Valid()
      requires c.Addr? ==> c.addr in blocks
      modifies this
      ensures Valid() && next == old(next)
      ensures c.Null? ==> blocks == old(blocks)
      ensures c.Addr? ==> blocks == old(blocks) - {c.addr}
    {
      if c.Null? {
        return;
      }
      var lenWithNul := CStrLenWithNul(blocks[c.addr]);
      ScanMeasuresWholeBlock(blocks[c.addr]);
      assert lenWithNul == |blocks[c.addr]|;
      blocks := blocks - {c.addr};
    }
  }
}
