/**
 * The five exported batch operations of the R bridge. Each opens a handle,
 * takes its converters from the handle's declared encoding, runs its loop
 * over the input words and releases the handle.
 */
module Batch {
  import opened Wrappers
  import opened Engine
  import opened BatchSpec

  /** The error that aborts a whole call before any output is produced. */
  datatype LoadError = LoadFailed(message: string)

  /** What info reports about a loaded dictionary. */
  datatype DictInfo = DictInfo(dict: string, encoding: string, wordChars: Word)

  /**
   * Reports the dictionary path as given, the declared encoding and the
   * engine's word characters converted back to host text; fails if the pair does not load.
   */
  method Info(load: Loader, bridge: Bridge, affix: string, dict: string)
    returns (r: Result<DictInfo, LoadError>, ghost trace: seq<Call>)
    ensures load(affix, dict).None? ==> r == Failure(LoadFailed("Failed to load file " + dict))
    ensures load(affix, dict).Some? ==>
      var d := load(affix, dict).value;
      r == Success(DictInfo(dict, d.encoding, bridge.toHost(d.encoding, d.wordChars)))
    ensures trace == if load(affix, dict).None? then [] else [Deleted]
  {
    var loaded := load(affix, dict);
    if loaded.None? {
      return Failure(LoadFailed("Failed to load file " + dict)), [];
    }
    var h := new Handle(loaded.value);
    var enc := h.encoding;
    var out := DictInfo(dict, enc, bridge.toHost(enc, h.wordChars));
    h.Delete();
    r, trace := Success(out), h.log;
  }

  /**
   * Adds every convertible ignore word to the session, then checks every input
   * word against that session: one flag per word, false for a word that does not convert.
   */
  method Check(load: Loader, bridge: Bridge, affix: string, dict: string, words: seq<Word>, ignore: seq<Word>)
    returns (r: Result<seq<bool>, LoadError>, ghost trace: seq<Call>)
    ensures load(affix, dict).None? ==> r == Failure(LoadFailed("Failed to load file " + dict))
    ensures load(affix, dict).Some? ==>
      var d := load(affix, dict).value;
      r == Success(CheckSpec(d.engine, bridge, d.encoding, Ignored(bridge, d.encoding, {}, ignore), words))
    ensures trace == if load(affix, dict).None? then [] else
      CheckTrace(bridge, load(affix, dict).value.encoding, ignore, words)
  {
    var loaded := load(affix, dict);
    if loaded.None? {
      return Failure(LoadFailed("Failed to load file " + dict)), [];
    }
    var h := new Handle(loaded.value);
    var enc := h.encoding;

    var i := 0;
    while i < |ignore|
      invariant 0 <= i <= |ignore| && !h.released
      invariant h.vocab == Ignored(bridge, enc, {}, ignore[..i])
      invariant h.log == AddCalls(bridge, enc, ignore[..i])
    {
      var str := bridge.fromHost(enc, ignore[i]);
      if str.Some? {
        h.Add(str.value);
      }
      assert ignore[..i + 1][..i] == ignore[..i];
      i := i + 1;
    }
    assert ignore[..i] == ignore;

    ghost var vocab := h.vocab;
    var out: seq<bool> := [];
    i := 0;
    while i < |words|
      invariant 0 <= i <= |words| && !h.released
      invariant h.vocab == vocab
      invariant out == CheckSpec(h.engine, bridge, enc, vocab, words[..i])
      invariant h.log == AddCalls(bridge, enc, ignore) + SpellCalls(bridge, enc, vocab, words[..i])
    {
      var str := bridge.fromHost(enc, words[i]);
      if str.Some? {
        var ok := h.Spell(str.value);
        out := out + [ok];
      } else {
        out := out + [false];
      }
      assert words[..i + 1][..i] == words[..i];
      i := i + 1;
    }
    assert words[..i] == words;

    h.Delete();
    r, trace := Success(out), h.log;
  }

  /** Maps an engine list back to host words, one push per element, in engine order. */
  method ConvertList(bridge: Bridge, enc: string, wlst: seq<Bytes>) returns (pieces: seq<Word>)
    ensures |pieces| == |wlst|
    ensures forall j :: 0 <= j < |wlst| ==> pieces[j] == bridge.toHost(enc, wlst[j])
  {
    pieces := [];
    var j := 0;
    while j < |wlst|
      invariant 0 <= j <= |wlst| && |pieces| == j
      invariant forall k :: 0 <= k < j ==> pieces[k] == bridge.toHost(enc, wlst[k])
    {
      pieces := pieces + [bridge.toHost(enc, wlst[j])];
      j := j + 1;
    }
  }

  /** The loop shared by suggest, analyze and stem: one list per input word, empty for a word that does not convert. */
  method RunQueries(h: Handle, bridge: Bridge, q: Query, words: seq<Word>) returns (out: seq<seq<Word>>)
    requires !h.released
    modifies h
    ensures out == ListSpec(h.engine, bridge, h.encoding, q, h.vocab, words)
    ensures h.vocab == old(h.vocab) && !h.released
    ensures h.log == old(h.log) + AskCalls(bridge, h.encoding, q, h.vocab, words)
  {
    var enc := h.encoding;
    out := [];
    var i := 0;
    while i < |words|
      invariant 0 <= i <= |words| && !h.released
      invariant h.vocab == old(h.vocab)
      invariant out == ListSpec(h.engine, bridge, enc, q, h.vocab, words[..i])
      invariant h.log == old(h.log) + AskCalls(bridge, enc, q, h.vocab, words[..i])
    {
      var pieces: seq<Word> := [];
      var str := bridge.fromHost(enc, words[i]);
      if str.Some? {
        var wlst := h.Query(q, str.value);
        pieces := ConvertList(bridge, enc, wlst);
        assert pieces == HostList(bridge, enc, wlst);
      }
      out := out + [pieces];
      assert words[..i + 1][..i] == words[..i];
      i := i + 1;
    }
    assert words[..i] == words;
  }

  /** One list of suggestions per input word; fails if the pair does not load. */
  method Suggest(load: Loader, bridge: Bridge, affix: string, dict: string, words: seq<Word>)
    returns (r: Result<seq<seq<Word>>, LoadError>, ghost trace: seq<Call>)
    ensures load(affix, dict).None? ==> r == Failure(LoadFailed("Failed to load " + dict))
    ensures load(affix, dict).Some? ==>
      var d := load(affix, dict).value;
      r == Success(ListSpec(d.engine, bridge, d.encoding, Query.Suggest, {}, words))
    ensures trace == if load(affix, dict).None? then [] else
      ListTrace(bridge, load(affix, dict).value.encoding, Query.Suggest, words)
  {
    var loaded := load(affix, dict);
    if loaded.None? {
      return Failure(LoadFailed("Failed to load " + dict)), [];
    }
    var h := new Handle(loaded.value);
    var out := RunQueries(h, bridge, Query.Suggest, words);
    h.Delete();
    r, trace := Success(out), h.log;
  }

  /** One list of morphological analyses per input word; fails if the pair does not load. */
  method Analyze(load: Loader, bridge: Bridge, affix: string, dict: string, words: seq<Word>)
    returns (r: Result<seq<seq<Word>>, LoadError>, ghost trace: seq<Call>)
    ensures load(affix, dict).None? ==> r == Failure(LoadFailed("Failed to load " + dict))
    ensures load(affix, dict).Some? ==>
      var d := load(affix, dict).value;
      r == Success(ListSpec(d.engine, bridge, d.encoding, Query.Analyze, {}, words))
    ensures trace == if load(affix, dict).None? then [] else
      ListTrace(bridge, load(affix, dict).value.encoding, Query.Analyze, words)
  {
    var loaded := load(affix, dict);
    if loaded.None? {
      return Failure(LoadFailed("Failed to load " + dict)), [];
    }
    var h := new Handle(loaded.value);
    var out := RunQueries(h, bridge, Query.Analyze, words);
    h.Delete();
    r, trace := Success(out), h.log;
  }

  /**
   * One list of stems per input word. Unlike the other operations there is no
   * load-failure path: the handle is used without being checked, so the caller
   * must supply a pair that loads.
   */
  method Stem(load: Loader, bridge: Bridge, affix: string, dict: string, words: seq<Word>)
    returns (out: seq<seq<Word>>, ghost trace: seq<Call>)
    requires load(affix, dict).Some?
    ensures var d := load(affix, dict).value;
      out == ListSpec(d.engine, bridge, d.encoding, Query.Stem, {}, words)
    ensures trace == ListTrace(bridge, load(affix, dict).value.encoding, Query.Stem, words)
  {
    var h := new Handle(load(affix, dict).value);
    out := RunQueries(h, bridge, Query.Stem, words);
    h.Delete();
    trace := h.log;
  }
}
