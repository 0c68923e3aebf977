/** The blocked UDP port bitmap: how dpstat fills its words (data-plane/tools/dpstat.c) and how the
    packet path tests a port (data-plane/src/blacklist.h). A 64-bit word is the set of its one bits. */
module BlockedPorts {
  import opened Wrappers
  import opened Bpf

  const PORT_WORDS: nat := 1024

  predicate BitSet(words: seq<Word64>, port: nat)
    requires |words| == PORT_WORDS && port < 65536
  {
    port % 64 in words[port / 64]
  }

  lemma SetPort(words: seq<Word64>, p: nat, port: nat)
    requires |words| == PORT_WORDS && p < 65536 && port < 65536
    ensures BitSet(words[p / 64 := words[p / 64] + {p % 64}], port) <==> port == p || BitSet(words, port)
  {
  }

  /** The argument loop of cmd_set_blocked_ports. A port beyond 65535 is refused before any write. */
  method PortBitmap(ports: seq<nat>) returns (r: Option<seq<Word64>>)
    ensures r.Some? <==> forall i :: 0 <= i < |ports| ==> ports[i] <= 65535
    ensures r.Some? ==> |r.value| == PORT_WORDS
                        && forall port: nat :: port < 65536 ==> (BitSet(r.value, port) <==> port in ports)
  {
    var words := new Word64[PORT_WORDS](_ => {});
    for i := 0 to |ports|
      invariant forall j :: 0 <= j < i ==> ports[j] <= 65535
      invariant forall port: nat :: port < 65536 ==> (BitSet(words[..], port) <==> port in ports[..i])
    {
      hide BitSet;
      var p := ports[i];
      if p > 65535 { return None; }
      ghost var before := words[..];
      words[p / 64] := words[p / 64] + {p % 64};
      assert words[..] == before[p / 64 := before[p / 64] + {p % 64}];
      assert ports[..i + 1] == ports[..i] + [p];
      forall port: nat | port < 65536 ensures BitSet(words[..], port) <==> port in ports[..i + 1] {
        SetPort(before, p, port);
      }
    }
    assert ports[..|ports|] == ports;
    r := Some(words[..]);
  }

  /** deny_filter_stage, bitmap part: None when the word is missing from the map. */
  function PortBlocked(bitmap: Inner, port: nat): Option<bool>
    requires port < 65536
  {
    var key := Word(port / 64);
    if key in bitmap && bitmap[key].Bits? then Some(port % 64 in bitmap[key].word) else None
  }

  /** An array map: every word exists from its creation on. */
  ghost predicate AllWords(bitmap: Inner)
  {
    forall i :: 0 <= i < PORT_WORDS ==> Word(i) in bitmap && bitmap[Word(i)].Bits?
  }

  /** The ports a bitmap blocks. */
  function BlockedBy(bitmap: Inner): set<nat>
  {
    set port: nat | port < 65536 && PortBlocked(bitmap, port) == Some(true)
  }

  /** No port test on a bitmap with all its words can fail. */
  lemma AllWordsAnswer(bitmap: Inner, port: nat)
    requires AllWords(bitmap) && port < 65536
    ensures PortBlocked(bitmap, port) == Some(port in BlockedBy(bitmap))
  {
    assert Word(port / 64) in bitmap;
  }

  ghost predicate HasWords(bitmap: Inner, words: seq<Word64>, n: nat)
    requires n <= |words|
  {
    forall i :: 0 <= i < n ==> Word(i) in bitmap && bitmap[Word(i)] == Bits(words[i])
  }

  /** A map that holds all the words answers exactly the tests of those words. */
  lemma CompleteBitmapAnswers(bitmap: Inner, words: seq<Word64>, port: nat)
    requires |words| == PORT_WORDS && port < 65536 && HasWords(bitmap, words, PORT_WORDS)
    ensures PortBlocked(bitmap, port) == Some(BitSet(words, port))
  {
    assert Word(port / 64) in bitmap;
  }
}
