/**
 * How the client reads the proposal addresses out of the factory's logs:
 * each log's data loses its leading `0x`, is cut by the regular expression
 * `/.{1,64}/g` into runs of at most 64 characters, and the second run, from
 * its 25th character on, becomes the address `"0x…"`.
 *
 * JavaScript's `.` matches any character except the four line terminators,
 * so a run never spans one and the terminators themselves are skipped.
 */
module FactoryLog {
  import opened Outcomes

  /** The characters `.` does not match: line feed, carriage return, line and paragraph separators. */
  predicate IsLineTerminator(c: char) {
    c == '\n' || c == '\r' || c == '\U{2028}' || c == '\U{2029}'
  }

  predicate NoTerminator(s: string) {
    forall i :: 0 <= i < |s| ==> !IsLineTerminator(s[i])
  }

  predicate IsHexDigit(c: char) {
    ('0' <= c <= '9') || ('a' <= c <= 'f') || ('A' <= c <= 'F')
  }

  predicate IsHex(s: string) {
    forall i :: 0 <= i < |s| ==> IsHexDigit(s[i])
  }

  /** The width of one ABI word written in hex. */
  const WORD: nat := 64

  /** The hex digits of a 20-byte address inside a word are its last 40: the first 24 are padding. */
  const ADDRESS_OFFSET: nat := 24

  /** `s.substr(k)`: everything from index `k` on, the empty string past the end. */
  function Substr(s: string, k: nat): (r: string)
    ensures k <= |s| ==> s[..k] + r == s
    ensures |s| <= k ==> r == []
  {
    if k < |s| then s[k..] else []
  }

  /** How many characters a greedy `.{1,cap}` consumes at the start of `s`. */
  function RunLength(s: string, cap: nat): (n: nat)
    ensures n <= cap && n <= |s|
    ensures NoTerminator(s[..n])
    ensures n < cap && n < |s| ==> IsLineTerminator(s[n])
  {
    if cap == 0 || s == [] || IsLineTerminator(s[0]) then 0
    else
      var rest := RunLength(s[1..], cap - 1);
      assert s[..1 + rest] == [s[0]] + s[1..][..rest];
      1 + rest
  }

  /**
   * `s.match(/.{1,64}/g)` as a list, empty where JavaScript answers `null`:
   * every run is 1 to 64 characters long and holds no line terminator, and
   * there is none at all exactly when `s` is nothing but terminators.
   */
  function Chunks(s: string): (cs: seq<string>)
    ensures forall i :: 0 <= i < |cs| ==> 1 <= |cs[i]| <= WORD && NoTerminator(cs[i])
    ensures cs == [] <==> forall i :: 0 <= i < |s| ==> IsLineTerminator(s[i])
    decreases |s|
  {
    if s == [] then []
    else if IsLineTerminator(s[0]) then
      var cs := Chunks(s[1..]);
      assert forall i :: 1 <= i < |s| ==> s[i] == s[1..][i - 1];
      cs
    else
      var n := RunLength(s, WORD);
      [s[..n]] + Chunks(s[n..])
  }

  function Concat(ss: seq<string>): string {
    if ss == [] then [] else ss[0] + Concat(ss[1..])
  }

  /**
   * On data without line terminators the runs are the data cut into
   * 64-character pieces: they concatenate back to it, and only the last can
   * be shorter.
   */
  lemma {:induction false} ChunksOfPlainData(s: string)
    requires NoTerminator(s)
    ensures Concat(Chunks(s)) == s
    ensures forall i :: 0 <= i < |Chunks(s)| - 1 ==> |Chunks(s)[i]| == WORD
    decreases |s|
  {
    if s != [] {
      var n := RunLength(s, WORD);
      assert n == WORD || n == |s|;
      assert NoTerminator(s[n..]) by {
        forall i | 0 <= i < |s[n..]| ensures !IsLineTerminator(s[n..][i]) {
          assert s[n..][i] == s[n + i];
        }
      }
      ChunksOfPlainData(s[n..]);
      var cs := Chunks(s);
      assert cs == [s[..n]] + Chunks(s[n..]);
      assert cs[1..] == Chunks(s[n..]);
      assert s == s[..n] + s[n..];
      if n < WORD {
        assert s[n..] == [];
      }
    }
  }

  /** Data starting with a full word of plain characters: that word is the first run. */
  lemma {:induction false} ChunksOfWord(w: string, rest: string)
    requires |w| == WORD && NoTerminator(w)
    ensures Chunks(w + rest) == [w] + Chunks(rest)
  {
    var s := w + rest;
    assert s[..WORD] == w;
    assert forall i :: 0 <= i < WORD ==> s[i] == w[i];
    var n := RunLength(s, WORD);
    assert s[n..] == rest;
  }

  /**
   * `log.data.substr(2).match(/.{1,64}/g)` for one log: `None` for the
   * `null` that `filter` then drops, which happens exactly when nothing but
   * line terminators follows the first two characters.
   */
  function MatchOrNull(data: string): (r: Option<seq<string>>)
    ensures r.None? <==> forall i :: 2 <= i < |data| ==> IsLineTerminator(data[i])
    ensures r.Some? ==> r.value == Chunks(Substr(data, 2)) && r.value != []
  {
    var stripped := Substr(data, 2);
    assert forall i :: 2 <= i < |data| ==> data[i] == stripped[i - 2];
    var cs := Chunks(stripped);
    if cs == [] then None else Some(cs)
  }

  /** The `map` and `filter` over all logs: the runs of each log that has any, in log order. */
  function ChunkLogs(datas: seq<string>): (r: seq<seq<string>>)
    ensures |r| <= |datas|
    ensures forall i :: 0 <= i < |r| ==> r[i] != []
    ensures |datas| == 1 ==> r == (match MatchOrNull(datas[0]) case None => [] case Some(cs) => [cs])
  {
    if datas == [] then []
    else
      match MatchOrNull(datas[0])
      case None => ChunkLogs(datas[1..])
      case Some(cs) => [cs] + ChunkLogs(datas[1..])
  }

  /** Logs are handled one by one and in order: chunking two batches is chunking each. */
  lemma {:induction false} ChunkLogsAppend(a: seq<string>, b: seq<string>)
    ensures ChunkLogs(a + b) == ChunkLogs(a) + ChunkLogs(b)
    decreases |a|
  {
    if a == [] {
      assert a + b == b;
    } else {
      assert (a + b)[0] == a[0];
      assert (a + b)[1..] == a[1..] + b;
      ChunkLogsAppend(a[1..], b);
    }
  }

  /** `"0x" + chunk.substr(24)`. */
  function AddressOf(chunk: string): (a: string)
    ensures |a| >= 2 && a[..2] == "0x"
    ensures |chunk| == WORD ==> |a| == 2 + WORD - ADDRESS_OFFSET
  {
    "0x" + Substr(chunk, ADDRESS_OFFSET)
  }

  /**
   * The proposal addresses `Proposal.all` goes on to load, one per log with
   * runs, in log order. A log with a single run has no `chunk[1]`, and
   * reading `substr` of `undefined` throws, which rejects the whole batch:
   * that is `None`.
   */
  function Addresses(datas: seq<string>): (r: Option<seq<string>>)
    ensures var chunked := ChunkLogs(datas);
      && (r.Some? <==> EachHasSecond(chunked))
      && (r.Some? ==> |r.value| == |chunked|)
      && (r.Some? ==> forall i :: 0 <= i < |r.value| ==> r.value[i] == AddressOf(chunked[i][1]))
  {
    var chunked := ChunkLogs(datas);
    if EachHasSecond(chunked) then
      Some(seq(|chunked|, i requires 0 <= i < |chunked| => AddressOf(chunked[i][1])))
    else None
  }

  /** Every log has a second run. */
  predicate EachHasSecond(chunked: seq<seq<string>>) {
    forall i :: 0 <= i < |chunked| ==> |chunked[i]| >= 2
  }

  /** The data of a `ProposalCreated` log: `0x`, a first word, then the address padded to a word, then anything. */
  function CreatedLogData(first: string, address: string, rest: string): string {
    "0x" + first + Padding() + address + rest
  }

  /** The 24 zero digits in front of an address inside its word. */
  function Padding(): (z: string)
    ensures |z| == ADDRESS_OFFSET && IsHex(z)
  {
    seq(ADDRESS_OFFSET, _ => '0')
  }

  predicate WellFormedCreatedLog(first: string, address: string, rest: string) {
    |first| == WORD && IsHex(first) && |address| == WORD - ADDRESS_OFFSET && IsHex(address) && NoTerminator(rest)
  }

  /** A hex digit is never a line terminator. */
  lemma HexHasNoTerminator(s: string)
    requires IsHex(s)
    ensures NoTerminator(s)
  {
    forall i | 0 <= i < |s| ensures !IsLineTerminator(s[i]) {
      assert IsHexDigit(s[i]);
    }
  }

  /** Two full words of plain characters are the first two runs. */
  lemma {:induction false} ChunksOfTwoWords(first: string, second: string, rest: string)
    requires |first| == WORD && NoTerminator(first)
    requires |second| == WORD && NoTerminator(second)
    ensures Chunks(first + second + rest) == [first, second] + Chunks(rest)
  {
    var tail := second + rest;
    assert first + second + rest == first + tail;
    ChunksOfWord(first, tail);
    ChunksOfWord(second, rest);
    var later := Chunks(rest);
    assert [first] + ([second] + later) == [first, second] + later;
  }

  /** A single log whose data has at least two runs yields the address in its second. */
  lemma {:induction false} AddressesOfOneLog(data: string, cs: seq<string>)
    requires MatchOrNull(data) == Some(cs) && |cs| >= 2
    ensures Addresses([data]) == Some([AddressOf(cs[1])])
  {
    assert [data][1..] == [];
    assert ChunkLogs([data]) == [cs];
    assert EachHasSecond([cs]);
    var r := Addresses([data]);
    assert r.Some? && |r.value| == 1 && r.value[0] == AddressOf(cs[1]);
    assert r.value == [AddressOf(cs[1])];
  }

  /** The address word of a created log: the padding, then the address. */
  lemma {:induction false} PaddedAddress(address: string)
    requires |address| == WORD - ADDRESS_OFFSET && IsHex(address)
    ensures |Padding() + address| == WORD && NoTerminator(Padding() + address)
    ensures AddressOf(Padding() + address) == "0x" + address
  {
    var word := Padding() + address;
    assert IsHex(word) by {
      forall i | 0 <= i < |word| ensures IsHexDigit(word[i]) {
        if i < ADDRESS_OFFSET {
          assert word[i] == Padding()[i];
        } else {
          assert word[i] == address[i - ADDRESS_OFFSET];
        }
      }
    }
    HexHasNoTerminator(word);
    assert word[ADDRESS_OFFSET..] == address;
  }

  /** From one well-formed log the parser recovers `0x` followed by the address it carries. */
  lemma {:induction false} CreatedLogGivesItsAddress(first: string, address: string, rest: string)
    requires WellFormedCreatedLog(first, address, rest)
    ensures Addresses([CreatedLogData(first, address, rest)]) == Some(["0x" + address])
  {
    var word := Padding() + address;
    PaddedAddress(address);
    HexHasNoTerminator(first);
    var data := CreatedLogData(first, address, rest);
    assert Substr(data, 2) == first + word + rest;
    ChunksOfTwoWords(first, word, rest);
    var cs := [first, word] + Chunks(rest);
    AddressesOfOneLog(data, cs);
  }
}
