/** unzlocal_SearchCentralDir of DuiLib/XUnzip.cpp: the last signature near the end of a file, looked for in overlapping blocks. */
module CentralDir {
  import opened Bits

  type Octet = b: nat | b < 256

  const BUFREADCOMMENT: nat := 0x400

  /** The signature of the end of central directory record starts at p. */
  predicate SigAt(file: seq<Octet>, p: nat)
  {
    p + 4 <= |file| && file[p] == 0x50 && file[p + 1] == 0x4b && file[p + 2] == 0x05 && file[p + 3] == 0x06
  }

  /** r is the last place from lo on where a signature starts, not counting place 0; or 0 if there is none. */
  ghost predicate Last(file: seq<Octet>, lo: nat, r: nat)
  {
    (r > 0 ==> lo <= r && SigAt(file, r)) && forall p :: lo <= p && p > r ==> !SigAt(file, p)
  }

  lemma {:induction false} SigSlice(file: seq<Octet>, at: nat, n: nat, i: nat)
    requires at + n <= |file| && i + 4 <= n
    ensures var buf := file[at..at + n];
            (buf[i] == 0x50 && buf[i + 1] == 0x4b && buf[i + 2] == 0x05 && buf[i + 3] == 0x06) <==> SigAt(file, at + i)
  {
  }

  /** The loop over one block: the last signature in it. */
  method ScanBlock(file: seq<Octet>, pos: nat, size: nat) returns (found: nat)
    requires pos + size <= |file|
    ensures found == 0 || (pos <= found && found + 4 <= pos + size && SigAt(file, found))
    ensures forall p :: pos <= p && p + 4 <= pos + size && p > found ==> !SigAt(file, p)
  {
    var buf := file[pos..pos + size];
    var i := size - 3;
    while i > 0
      invariant i <= size - 3
      invariant forall p :: pos + (if i > 0 then i else 0) <= p && p + 4 <= pos + size ==> !SigAt(file, p)
      decreases i
    {
      i := i - 1;
      SigSlice(file, pos, size, i);
      if buf[i] == 0x50 && buf[i + 1] == 0x4b && buf[i + 2] == 0x05 && buf[i + 3] == 0x06 {
        return pos + i;
      }
    }
    found := 0;
  }

  /** unzlocal_SearchCentralDir, on a file that can be read. */
  method SearchCentralDir(file: seq<Octet>) returns (uPosFound: nat)
    ensures Last(file, |file| - Least(0xffff, |file|), uPosFound)
  {
    var uSizeFile := |file|;
    var uMaxBack := 0xffff;
    if uMaxBack > uSizeFile { uMaxBack := uSizeFile; }
    uPosFound := 0;
    var uBackRead := 4;
    while uBackRead < uMaxBack
      invariant uBackRead == 4 || uBackRead <= uMaxBack
      invariant uPosFound == 0 && forall p :: p > 0 && p >= uSizeFile - uBackRead && (uBackRead > 4 || p > uSizeFile - 4) ==> !SigAt(file, p)
      decreases uMaxBack - uBackRead
    {
      if uBackRead + BUFREADCOMMENT > uMaxBack { uBackRead := uMaxBack; } else { uBackRead := uBackRead + BUFREADCOMMENT; }
      var uReadPos := uSizeFile - uBackRead;
      var uReadSize := if BUFREADCOMMENT + 4 < uSizeFile - uReadPos then BUFREADCOMMENT + 4 else uSizeFile - uReadPos;
      uPosFound := ScanBlock(file, uReadPos, uReadSize);
      if uPosFound != 0 { break; }
    }
  }

  /** A file that ends with an end of central directory record of 22 bytes and its comment, with no signature in between, is
      recognised exactly if record and comment together fit the part of the file that is searched; the format allows
      comments up to 65535 bytes. */
  lemma {:induction false} RecordFound(file: seq<Octet>, at: nat, comment: nat, r: nat)
    requires at > 0 && |file| == at + 22 + comment && SigAt(file, at) && forall p :: p > at ==> !SigAt(file, p)
    requires Last(file, |file| - Least(0xffff, |file|), r)
    ensures r == at <==> 22 + comment <= 0xffff
  {
  }

  /** An empty archive: an end of central directory record without a comment, and nothing else. */
  function EmptyArchive(): seq<Octet>
  {
    [0x50, 0x4b, 0x05, 0x06] + seq(18, _ => 0)
  }

  /** Its record is at place 0, and no place is found. */
  lemma {:induction false} EmptyNotFound(r: nat)
    requires Last(EmptyArchive(), |EmptyArchive()| - Least(0xffff, |EmptyArchive()|), r)
    ensures |EmptyArchive()| == 22 && SigAt(EmptyArchive(), 0) && r == 0
  {
    var file := EmptyArchive();
    assert forall p :: 0 < p < 22 ==> file[p] != 0x50;
  }

  /** Nor is any other place of a file whose only signature is at its start. */
  lemma {:induction false} FirstNotFound(file: seq<Octet>, r: nat)
    requires Last(file, |file| - Least(0xffff, |file|), r)
    ensures r == 0 <==> forall p :: p > 0 && p >= |file| - 0xffff ==> !SigAt(file, p)
  {
    if r > 0 { assert SigAt(file, r); }
  }
}
