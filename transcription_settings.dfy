/** The transcription-settings store (src/stores/transcription-settings.js):
    a global vocabulary and default speaker count, per-session overrides, and
    the merged view sent with an upload. Saving to and loading from the
    Electron settings file are the `settings` parameter and left out. */
module TranscriptionSettings {
  import opened Wrappers
  import opened Text

  predicate NoDuplicates(xs: seq<string>)
  {
    forall i, j :: 0 <= i < j < |xs| ==> xs[i] != xs[j]
  }

  /** `[...new Set(xs)]`: each word at its first occurrence, in order. */
  function Unique(xs: seq<string>): seq<string>
  {
    if xs == [] then []
    else
      var prefix := Unique(xs[..|xs| - 1]);
      if xs[|xs| - 1] in xs[..|xs| - 1] then prefix else prefix + [xs[|xs| - 1]]
  }

  /** The set keeps every word and only those words. */
  lemma {:induction false} UniqueSameWords(xs: seq<string>)
    ensures forall w :: w in Unique(xs) <==> w in xs
  {
    if xs != [] {
      UniqueSameWords(xs[..|xs| - 1]);
      assert xs == xs[..|xs| - 1] + [xs[|xs| - 1]];
    }
  }

  /** The set holds no word twice. */
  lemma {:induction false} UniqueNoDuplicates(xs: seq<string>)
    ensures NoDuplicates(Unique(xs))
  {
    if xs != [] {
      var init := xs[..|xs| - 1];
      UniqueNoDuplicates(init);
      UniqueSameWords(init);
    }
  }

  /** A list without repeats is its own set. */
  lemma {:induction false} UniqueOfDistinct(xs: seq<string>)
    requires NoDuplicates(xs)
    ensures Unique(xs) == xs
  {
    if xs != [] {
      var init := xs[..|xs| - 1];
      assert NoDuplicates(init);
      UniqueOfDistinct(init);
      assert xs == init + [xs[|xs| - 1]];
    }
  }

  /** Merge order: the de-duplicated first list comes first, unchanged,
      whatever follows it. */
  lemma {:induction false} UniquePrefix(xs: seq<string>, ys: seq<string>)
    ensures |Unique(xs)| <= |Unique(xs + ys)| && Unique(xs + ys)[..|Unique(xs)|] == Unique(xs)
  {
    if ys == [] {
      assert xs + ys == xs;
    } else {
      var init := ys[..|ys| - 1];
      UniquePrefix(xs, init);
      assert (xs + ys)[..|xs + ys| - 1] == xs + init;
    }
  }

  /** `xs.indexOf(w)`: the first position of `w`, or None for -1. */
  function IndexOf(xs: seq<string>, w: string): (r: Option<nat>)
    ensures r.Some? ==> r.value < |xs| && xs[r.value] == w && w !in xs[..r.value]
    ensures r.None? <==> w !in xs
  {
    if xs == [] then None
    else if xs[0] == w then Some(0)
    else
      var rest := IndexOf(xs[1..], w);
      assert xs == [xs[0]] + xs[1..];
      if rest.None? then None
      else
        assert xs[..rest.value + 1] == [xs[0]] + xs[1..][..rest.value];
        Some(rest.value + 1)
  }

  /** The splice of removeGlobalWord and removeSessionWord: the first
      occurrence of `w` goes, nothing else changes. */
  function RemoveFirst(xs: seq<string>, w: string): (r: seq<string>)
    ensures w !in xs ==> r == xs
    ensures w in xs ==> multiset(r) == multiset(xs) - multiset{w}
  {
    match IndexOf(xs, w)
    case None => xs
    case Some(i) =>
      assert xs == xs[..i] + [w] + xs[i + 1..];
      xs[..i] + xs[i + 1..]
  }

  /** From a list without repeats, the word is then gone altogether. */
  lemma RemoveFirstDistinct(xs: seq<string>, w: string)
    requires NoDuplicates(xs)
    ensures w !in RemoveFirst(xs, w) && NoDuplicates(RemoveFirst(xs, w))
    ensures forall v :: v != w ==> (v in RemoveFirst(xs, w) <==> v in xs)
  {
    if w in xs {
      var i := IndexOf(xs, w).value;
      var r := RemoveFirst(xs, w);
      assert r == xs[..i] + xs[i + 1..];
      forall k | 0 <= k < |r| ensures r[k] != w && r[k] == (if k < i then xs[k] else xs[k + 1]) {
      }
    } else {
      assert RemoveFirst(xs, w) == xs;
    }
  }

  /** The settings file's content: `{ vocabulary, defaultSpeakerCount }`. */
  datatype StoredSettings = StoredSettings(vocabulary: Option<seq<string>>, defaultSpeakerCount: Option<int>)

  /** setSessionOptions' argument; the outer `None` is an undefined field,
      `Some(None)` an explicit null. */
  datatype SessionOptions = SessionOptions(title: Option<string>, speakerCount: Option<Option<int>>, vocabulary: Option<seq<string>>)

  /** The transcriptionOptions getter's object. */
  datatype TranscriptionRequest = TranscriptionRequest(title: Option<string>, speakerCount: Option<int>, customVocabulary: seq<string>)

  class Settings {
    var globalVocabulary: seq<string>
    var defaultSpeakerCount: Option<int>
    var sessionTitle: string
    var sessionSpeakerCount: Option<int>
    var sessionVocabulary: seq<string>
    var loaded: bool

    constructor()
      ensures globalVocabulary == [] && defaultSpeakerCount.None? && sessionTitle == ""
      ensures sessionSpeakerCount.None? && sessionVocabulary == [] && !loaded
    {
      globalVocabulary, defaultSpeakerCount := [], None;
      sessionTitle, sessionSpeakerCount, sessionVocabulary := "", None, [];
      loaded := false;
    }

    /** The word lists as the add actions keep them: no repeats in either,
        and no session word that is also global. */
    ghost predicate WordsDistinct()
      reads this
    {
      NoDuplicates(globalVocabulary) && NoDuplicates(sessionVocabulary)
      && forall w :: w in sessionVocabulary ==> w !in globalVocabulary
    }

    function MergedVocabulary(): seq<string>
      reads this
    {
      Unique(globalVocabulary + sessionVocabulary)
    }

    /** `sessionSpeakerCount ?? defaultSpeakerCount`. */
    function EffectiveSpeakerCount(): (c: Option<int>)
      reads this
      ensures sessionSpeakerCount.Some? ==> c == sessionSpeakerCount
      ensures sessionSpeakerCount.None? ==> c == defaultSpeakerCount
    {
      if sessionSpeakerCount.Some? then sessionSpeakerCount else defaultSpeakerCount
    }

    /** transcriptionOptions: an empty title becomes null. */
    function TranscriptionOptions(): (r: TranscriptionRequest)
      reads this
      ensures r.title.None? <==> sessionTitle == ""
      ensures r.title.Some? ==> r.title.value == sessionTitle
      ensures r.speakerCount == EffectiveSpeakerCount() && r.customVocabulary == MergedVocabulary()
    {
      TranscriptionRequest(if sessionTitle == "" then None else Some(sessionTitle),
        EffectiveSpeakerCount(), MergedVocabulary())
    }

    /** While the lists are kept distinct, the merged vocabulary is simply the
        global words followed by the session words. */
    lemma MergedIsConcatenation()
      requires WordsDistinct()
      ensures MergedVocabulary() == globalVocabulary + sessionVocabulary
    {
      var xs := globalVocabulary + sessionVocabulary;
      forall i, j | 0 <= i < j < |xs| ensures xs[i] != xs[j] {
        if j >= |globalVocabulary| && i < |globalVocabulary| {
          assert xs[j] in sessionVocabulary;
        }
      }
      UniqueOfDistinct(xs);
    }

    /** loadGlobalSettings with `settings` the reply of the settings file
        (`Err` when reading throws); a second call does nothing. */
    method LoadGlobalSettings(settings: Result<Option<StoredSettings>>)
      modifies this
      ensures old(loaded) ==> unchanged(this)
      ensures !old(loaded) ==> (loaded && sessionTitle == old(sessionTitle)
        && sessionSpeakerCount == old(sessionSpeakerCount) && sessionVocabulary == old(sessionVocabulary))
      ensures !old(loaded) && settings.Ok? && settings.value.Some? ==>
        (globalVocabulary == settings.value.value.vocabulary.GetOr([])
        && defaultSpeakerCount == settings.value.value.defaultSpeakerCount)
      ensures !old(loaded) && !(settings.Ok? && settings.value.Some?) ==>
        (globalVocabulary == old(globalVocabulary) && defaultSpeakerCount == old(defaultSpeakerCount))
    {
      if loaded {
        return;
      }
      if settings.Ok? && settings.value.Some? {
        var stored := settings.value.value;
        globalVocabulary := stored.vocabulary.GetOr([]);
        defaultSpeakerCount := stored.defaultSpeakerCount;
      }
      loaded := true;
    }

    /** setSessionOptions: only the fields given are overwritten. */
    method SetSessionOptions(options: SessionOptions)
      modifies this
      ensures sessionTitle == options.title.GetOr(old(sessionTitle))
      ensures sessionSpeakerCount == options.speakerCount.GetOr(old(sessionSpeakerCount))
      ensures sessionVocabulary == options.vocabulary.GetOr(old(sessionVocabulary))
      ensures globalVocabulary == old(globalVocabulary) && defaultSpeakerCount == old(defaultSpeakerCount)
      ensures loaded == old(loaded)
    {
      if options.title.Some? {
        sessionTitle := options.title.value;
      }
      if options.speakerCount.Some? {
        sessionSpeakerCount := options.speakerCount.value;
      }
      if options.vocabulary.Some? {
        sessionVocabulary := options.vocabulary.value;
      }
    }

    /** resetSession: the session fields are cleared, the global ones kept. */
    method ResetSession()
      modifies this
      ensures sessionTitle == "" && sessionSpeakerCount.None? && sessionVocabulary == []
      ensures globalVocabulary == old(globalVocabulary) && defaultSpeakerCount == old(defaultSpeakerCount)
      ensures loaded == old(loaded)
    {
      sessionTitle, sessionSpeakerCount, sessionVocabulary := "", None, [];
    }

    /** addGlobalWord: the trimmed word is appended when it is non-empty and
        not yet global. */
    method AddGlobalWord(word: string)
      modifies this
      ensures var t := Trim(word);
        globalVocabulary == if t != "" && t !in old(globalVocabulary) then old(globalVocabulary) + [t] else old(globalVocabulary)
      ensures sessionTitle == old(sessionTitle) && sessionSpeakerCount == old(sessionSpeakerCount)
      ensures sessionVocabulary == old(sessionVocabulary) && defaultSpeakerCount == old(defaultSpeakerCount)
      ensures loaded == old(loaded)
      ensures NoDuplicates(old(globalVocabulary)) ==> NoDuplicates(globalVocabulary)
    {
      var trimmed := Trim(word);
      if trimmed != "" && trimmed !in globalVocabulary {
        globalVocabulary := globalVocabulary + [trimmed];
      }
    }

    /** removeGlobalWord: the first occurrence, if any. */
    method RemoveGlobalWord(word: string)
      modifies this
      ensures globalVocabulary == RemoveFirst(old(globalVocabulary), word)
      ensures sessionTitle == old(sessionTitle) && sessionSpeakerCount == old(sessionSpeakerCount)
      ensures sessionVocabulary == old(sessionVocabulary) && defaultSpeakerCount == old(defaultSpeakerCount)
      ensures loaded == old(loaded)
    {
      match IndexOf(globalVocabulary, word) {
        case None =>
        case Some(index) =>
          globalVocabulary := globalVocabulary[..index] + globalVocabulary[index + 1..];
      }
    }

    method SetDefaultSpeakerCount(count: Option<int>)
      modifies this
      ensures defaultSpeakerCount == count && globalVocabulary == old(globalVocabulary)
      ensures sessionTitle == old(sessionTitle) && sessionSpeakerCount == old(sessionSpeakerCount)
      ensures sessionVocabulary == old(sessionVocabulary) && loaded == old(loaded)
    {
      defaultSpeakerCount := count;
    }

    /** addSessionWord: the trimmed word is appended when it is non-empty and
        in neither list. */
    method AddSessionWord(word: string)
      modifies this
      ensures var t := Trim(word);
        sessionVocabulary == if t != "" && t !in old(sessionVocabulary) && t !in old(globalVocabulary)
          then old(sessionVocabulary) + [t] else old(sessionVocabulary)
      ensures globalVocabulary == old(globalVocabulary) && defaultSpeakerCount == old(defaultSpeakerCount)
      ensures sessionTitle == old(sessionTitle) && sessionSpeakerCount == old(sessionSpeakerCount)
      ensures loaded == old(loaded)
      ensures old(WordsDistinct()) ==> WordsDistinct()
    {
      var trimmed := Trim(word);
      if trimmed != "" && trimmed !in sessionVocabulary && trimmed !in globalVocabulary {
        sessionVocabulary := sessionVocabulary + [trimmed];
      }
    }

    /** removeSessionWord: the first occurrence, if any. */
    method RemoveSessionWord(word: string)
      modifies this
      ensures sessionVocabulary == RemoveFirst(old(sessionVocabulary), word)
      ensures globalVocabulary == old(globalVocabulary) && defaultSpeakerCount == old(defaultSpeakerCount)
      ensures sessionTitle == old(sessionTitle) && sessionSpeakerCount == old(sessionSpeakerCount)
      ensures loaded == old(loaded)
    {
      match IndexOf(sessionVocabulary, word) {
        case None =>
        case Some(index) =>
          sessionVocabulary := sessionVocabulary[..index] + sessionVocabulary[index + 1..];
      }
    }
  }
}
