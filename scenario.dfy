/**
 * A worked batch: an ISO-8859-1 dictionary that knows "color", the ignore
 * list ["colour"] and an emoji that has no ISO-8859-1 representation.
 */
module Scenario {
  import opened Wrappers
  import opened Engine
  import opened BatchSpec

  /** Host text to ISO-8859-1: fails on any character above U+00FF. */
  function Latin1(enc: string, w: Word): Option<Bytes>
  {
    if forall i :: 0 <= i < |w| ==> w[i] as int < 256
    then Some(seq(|w|, i requires 0 <= i < |w| => w[i] as int as byte))
    else None
  }

  /** ISO-8859-1 back to host text. */
  function FromLatin1(enc: string, s: Bytes): Word
  {
    seq(|s|, i requires 0 <= i < |s| => s[i] as int as char)
  }

  /** An engine whose word list holds "color" and which accepts every session word. */
  function Spell(vocab: set<Bytes>, s: Bytes): bool
  {
    s in vocab || s == Latin1("ISO8859-1", "color").value
  }

  lemma ColourScenario()
    ensures var b := Bridge(Latin1, FromLatin1);
      var e := Engine(Spell, (v, s) => [], (v, s) => [], (v, s) => []);
      CheckSpec(e, b, "ISO8859-1", Ignored(b, "ISO8859-1", {}, ["colour"]), ["color", "colour", "\U{1F600}"])
        == [true, true, false]
  {
    var b := Bridge(Latin1, FromLatin1);
    var e := Engine(Spell, (v, s) => [], (v, s) => [], (v, s) => []);
    var colour := Latin1("ISO8859-1", "colour").value;
    assert Ignored(b, "ISO8859-1", {}, ["colour"]) == {colour};
    var vocab := {colour};
    assert "\U{1F600}"[0] as int >= 256;
    assert Latin1("ISO8859-1", "\U{1F600}").None?;
    assert colour != Latin1("ISO8859-1", "color").value by {
      assert |colour| == 6;
    }
    var words := ["color", "colour", "\U{1F600}"];
    assert words[..2] == ["color", "colour"];
    assert words[..2][..1] == ["color"];
    assert CheckSpec(e, b, "ISO8859-1", vocab, ["color"]) == [true];
    assert CheckSpec(e, b, "ISO8859-1", vocab, ["color", "colour"]) == [true, true];
  }
}
