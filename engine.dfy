/**
 * The foreign collaborators of the batch core: the Hunspell engine, the iconv
 * conversions between the host's text and the dictionary's declared encoding,
 * and the loading of an affix/dictionary pair. None of their internals are
 * modelled; each is an arbitrary function supplied by the caller.
 */
module Engine {
  import opened Wrappers

  newtype byte = x: int | 0 <= x < 256

  /** A word in the dictionary's declared encoding, as the engine sees it. */
  type Bytes = seq<byte>

  /** A word in the host's native text representation. */
  type Word = string

  /**
   * The engine's capability surface. Each operation depends on the session
   * vocabulary (words added to this handle so far) and the engine-encoded word.
   */
  datatype Engine = Engine(
    spell: (set<Bytes>, Bytes) -> bool,
    suggest: (set<Bytes>, Bytes) -> seq<Bytes>,
    analyze: (set<Bytes>, Bytes) -> seq<Bytes>,
    stem: (set<Bytes>, Bytes) -> seq<Bytes>)

  /** What loading an affix/dictionary pair yields: its declared encoding, its extra word characters and the engine. */
  datatype Dictionary = Dictionary(encoding: string, wordChars: Bytes, engine: Engine)

  /** Loading by affix path and dictionary path; None is a load that failed. */
  type Loader = (string, string) -> Option<Dictionary>

  /**
   * The converters opened for a named encoding: host to engine may fail
   * (the word has no representation there), engine to host always yields a word.
   */
  datatype Bridge = Bridge(
    fromHost: (string, Word) -> Option<Bytes>,
    toHost: (string, Bytes) -> Word)

  /** The three list-producing engine operations. */
  datatype Query = Suggest | Analyze | Stem

  /** The engine operation that a query selects. */
  function Ask(e: Engine, q: Query, vocab: set<Bytes>, w: Bytes): seq<Bytes>
  {
    match q
    case Suggest => e.suggest(vocab, w)
    case Analyze => e.analyze(vocab, w)
    case Stem => e.stem(vocab, w)
  }

  /** One call made on a handle, with the session vocabulary the engine saw. */
  datatype Call =
    | Added(word: Bytes)
    | Spelled(vocab: set<Bytes>, word: Bytes)
    | Asked(query: Query, vocab: set<Bytes>, word: Bytes)
    | Deleted

  /**
   * A loaded engine instance, owned by one batch call. The session vocabulary
   * is the only state it changes; the ghost log records every call made on it.
   */
  class Handle {
    const encoding: string
    const wordChars: Bytes
    const engine: Engine
    var vocab: set<Bytes>
    ghost var log: seq<Call>
    ghost var released: bool

    constructor (d: Dictionary)
      ensures encoding == d.encoding && wordChars == d.wordChars && engine == d.engine
      ensures vocab == {} && log == [] && !released
    {
      encoding, wordChars, engine := d.encoding, d.wordChars, d.engine;
      vocab, log, released := {}, [], false;
    }

    /** Adds a word to the session vocabulary. */
    method Add(w: Bytes)
      requires !released
      modifies this
      ensures vocab == old(vocab) + {w}
      ensures log == old(log) + [Added(w)] && released == old(released)
    {
      vocab := vocab + {w};
      log := log + [Added(w)];
    }

    /** Checks one word against the current session vocabulary; changes no vocabulary. */
    method Spell(w: Bytes) returns (ok: bool)
      requires !released
      modifies this
      ensures ok == engine.spell(vocab, w)
      ensures vocab == old(vocab) && released == old(released)
      ensures log == old(log) + [Spelled(vocab, w)]
    {
      ok := engine.spell(vocab, w);
      log := log + [Spelled(vocab, w)];
    }

    /** Runs a list-producing query; the engine's list is returned in engine order. */
    method Query(q: Query, w: Bytes) returns (wlst: seq<Bytes>)
      requires !released
      modifies this
      ensures wlst == Ask(engine, q, vocab, w)
      ensures vocab == old(vocab) && released == old(released)
      ensures log == old(log) + [Asked(q, vocab, w)]
    {
      wlst := Ask(engine, q, vocab, w);
      log := log + [Asked(q, vocab, w)];
    }

    /** Releases the handle; nothing may be asked of it afterwards. */
    method Delete()
      requires !released
      modifies this
      ensures released && vocab == old(vocab)
      ensures log == old(log) + [Deleted]
    {
      released := true;
      log := log + [Deleted];
    }
  }
}
