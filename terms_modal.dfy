/**
 * The terms-of-use dialog (src/app/components/termsModal/index.tsx): a
 * checkbox, an accept button that records the acceptance in the browser's
 * local storage under a key derived from the project name, and a close
 * handler. The callbacks it is given are recorded as effects.
 */
module TermsModal {
  import opened Common
  import opened Text

  const DefaultProjectName: string := "Template"
  const KeySuffix: string := "-terms-accepted"

  /** `replace(/\s+/g, '-')`: every maximal run of white space becomes one
      `-`. */
  function DashSpaceRuns(s: string): (r: string)
    ensures NoSpace(r)
    ensures |r| <= |s|
    ensures s != [] && !IsSpace(s[0]) ==> r != [] && r[0] == s[0]
    decreases |s|
  {
    if s == [] then []
    else if IsSpace(s[0]) then
      var rest := TrimStart(s);
      "-" + DashSpaceRuns(rest)
    else [s[0]] + DashSpaceRuns(s[1..])
  }

  /** The local-storage key of a project: its name lower-cased, runs of
      white space turned into `-`, then `-terms-accepted`. */
  function StorageKey(projectName: string): (key: string)
    ensures NoSpace(key)
    ensures EndsWith(key, KeySuffix)
  {
    var stem := DashSpaceRuns(ToLower(projectName));
    KeyShape(stem);
    stem + KeySuffix
  }

  lemma KeyShape(stem: string)
    requires NoSpace(stem)
    ensures NoSpace(stem + KeySuffix) && EndsWith(stem + KeySuffix, KeySuffix)
  {
    var key := stem + KeySuffix;
    assert key[|stem|..] == KeySuffix;
    SuffixHasNoSpace();
    forall i | 0 <= i < |key| ensures !IsSpace(key[i]) {
      if i >= |stem| {
        assert key[i] == KeySuffix[i - |stem|];
      }
    }
  }

  lemma SuffixHasNoSpace()
    ensures NoSpace(KeySuffix)
  {
  }

  /** A word without white space passes through unchanged. */
  lemma {:induction false} DashWordPrefix(w: string, t: string)
    requires NoSpace(w)
    ensures DashSpaceRuns(w + t) == w + DashSpaceRuns(t)
    decreases |w|
  {
    if w == [] {
      assert w + t == t;
    } else {
      var c, rest := w[0], w[1..];
      HeadSplit(w, t);
      DashKeepsChar(c, rest + t);
      DashWordPrefix(rest, t);
      AppendAssoc([c], rest, DashSpaceRuns(t));
    }
  }

  /** `w + t` is its first character followed by the rest. */
  lemma HeadSplit(w: string, t: string)
    requires w != [] && NoSpace(w)
    ensures w + t == [w[0]] + (w[1..] + t) && w == [w[0]] + w[1..]
    ensures !IsSpace(w[0]) && NoSpace(w[1..])
  {
    assert forall i :: 0 <= i < |w| - 1 ==> w[1..][i] == w[i + 1];
  }

  lemma AppendAssoc(a: string, b: string, c: string)
    ensures a + (b + c) == (a + b) + c
  {
  }

  lemma DashKeepsChar(c: char, rest: string)
    requires !IsSpace(c)
    ensures DashSpaceRuns([c] + rest) == [c] + DashSpaceRuns(rest)
  {
    assert ([c] + rest)[1..] == rest;
  }

  /** A run of white space before a word becomes one `-`. */
  lemma {:induction false} DashSpaceRun(sp: string, t: string)
    requires sp != [] && AllSpace(sp)
    requires t == [] || !IsSpace(t[0])
    ensures DashSpaceRuns(sp + t) == "-" + DashSpaceRuns(t)
  {
    TrimStartOfRun(sp, t);
  }

  lemma {:induction false} TrimStartOfRun(sp: string, t: string)
    requires AllSpace(sp)
    requires t == [] || !IsSpace(t[0])
    ensures TrimStart(sp + t) == t
    decreases |sp|
  {
    if sp == [] {
      assert sp + t == t;
    } else {
      assert (sp + t)[1..] == sp[1..] + t;
      TrimStartOfRun(sp[1..], t);
    }
  }

  /** Text without white space is its own stem. */
  lemma DashNoSpace(w: string)
    requires NoSpace(w)
    ensures DashSpaceRuns(w) == w
  {
    DashWordPrefix(w, []);
    assert w + [] == w;
  }

  /** Two words separated by any run of white space are joined by one `-`. */
  lemma TwoWords(w1: string, sp: string, w2: string)
    requires NoSpace(w1) && NoSpace(w2)
    requires sp != [] && AllSpace(sp)
    ensures DashSpaceRuns(w1 + (sp + w2)) == w1 + ("-" + w2)
  {
    DashSpaceRun(sp, w2);
    DashNoSpace(w2);
    DashWordPrefix(w1, sp + w2);
  }

  /** The replacement is idempotent. */
  lemma DashIdempotent(s: string)
    ensures DashSpaceRuns(DashSpaceRuns(s)) == DashSpaceRuns(s)
  {
    DashNoSpace(DashSpaceRuns(s));
  }

  /** Without a `projectName` prop the key is "template-terms-accepted". */
  lemma DefaultKey()
    ensures StorageKey(DefaultProjectName) == "template" + KeySuffix
  {
    DefaultStem();
  }

  lemma DefaultStem()
    ensures DashSpaceRuns(ToLower(DefaultProjectName)) == "template"
  {
    LowerTemplate();
    DashNoSpace("template");
  }

  lemma LowerTemplate()
    ensures ToLower(DefaultProjectName) == "template" && NoSpace("template")
  {
  }

  /** Names that differ in letter case or in the white space between their
      words share a key: "My Band" and "my \t band" both give
      "my-band-terms-accepted". */
  lemma KeysIgnoreCaseAndSpacing()
    ensures StorageKey("My Band") == StorageKey("my \t band") == "my-band" + KeySuffix
  {
    LowerMyBand();
    KeyOfTwoWords("My Band", " ");
    KeyOfTwoWords("my \t band", " \t ");
  }

  lemma KeyOfTwoWords(name: string, sp: string)
    requires ToLower(name) == "my" + (sp + "band")
    requires sp != [] && AllSpace(sp)
    ensures StorageKey(name) == "my-band" + KeySuffix
  {
    assert DashSpaceRuns(ToLower(name)) == "my-band" by {
      WordsHaveNoSpace();
      TwoWords("my", sp, "band");
    }
  }

  lemma WordsHaveNoSpace()
    ensures NoSpace("my") && NoSpace("band")
  {
  }

  lemma LowerMyBand()
    ensures ToLower("My Band") == "my" + (" " + "band")
    ensures ToLower("my \t band") == "my" + (" \t " + "band")
    ensures AllSpace(" ") && AllSpace(" \t ")
  {
  }

  /** What the handlers call outside the component. */
  datatype Effect =
    | Stored(key: string, value: string)
    | TermsAcceptedCalled
    | CloseCalled

  /** The dialog: its props (`projectName`, whether `onTermsAccepted` was
      given), its checkbox state, the local storage and the calls made. */
  class Dialog {
    const projectName: string
    const hasOnTermsAccepted: bool
    var termsAccepted: bool
    var storage: map<string, string>
    var effects: seq<Effect>

    constructor (projectName: Option<string>, hasOnTermsAccepted: bool, storage: map<string, string>)
      ensures this.projectName == if projectName.Some? then projectName.value else DefaultProjectName
      ensures this.hasOnTermsAccepted == hasOnTermsAccepted
      ensures !termsAccepted && this.storage == storage && effects == []
    {
      this.projectName := if projectName.Some? then projectName.value else DefaultProjectName;
      this.hasOnTermsAccepted := hasOnTermsAccepted;
      termsAccepted := false;
      this.storage := storage;
      effects := [];
    }

    /** The checkbox's `onChange`. */
    method SetTermsAccepted(checked: bool)
      modifies this
      ensures termsAccepted == checked
      ensures storage == old(storage) && effects == old(effects)
    {
      termsAccepted := checked;
    }

    /** `handleAcceptTerms`, at time `now` (an ISO timestamp): nothing unless
        the box is ticked; then the acceptance is stored under the project's
        key, `onTermsAccepted` is called if given, and the dialog closes.
        The box stays ticked. */
    method HandleAcceptTerms(now: string)
      modifies this
      ensures termsAccepted == old(termsAccepted)
      ensures !termsAccepted ==> storage == old(storage) && effects == old(effects)
      ensures termsAccepted ==>
        && storage == old(storage)[StorageKey(projectName) := now]
        && effects == old(effects) + [Stored(StorageKey(projectName), now)]
                      + (if hasOnTermsAccepted then [TermsAcceptedCalled] else []) + [CloseCalled]
    {
      if termsAccepted {
        var key := StorageKey(projectName);
        storage := storage[key := now];
        effects := effects + [Stored(key, now)];
        if hasOnTermsAccepted {
          effects := effects + [TermsAcceptedCalled];
        }
        effects := effects + [CloseCalled];
      }
    }

    /** `handleModalClose`: untick the box, then close. */
    method HandleModalClose()
      modifies this
      ensures !termsAccepted
      ensures storage == old(storage) && effects == old(effects) + [CloseCalled]
    {
      termsAccepted := false;
      effects := effects + [CloseCalled];
    }
  }
}
