/**
 * Choosing a synthesis voice for a language (`findBestVoice` in
 * src/hooks/useVoice.ts): exact locale, then language family, then a table
 * of regional equivalents, then any English voice, then the first voice,
 * then none.
 */
module VoiceSelection {
  import opened Wrappers
  import opened JsText

  /** A synthesis voice as the platform enumerates it; only its name and language tag matter here. */
  datatype Voice = Voice(name: string, lang: string)

  /** The two tests the selection applies to a voice's tag: `v.lang === tag` and `v.lang.startsWith(prefix)`. */
  datatype LangTest = Exactly(tag: string) | Prefixed(prefix: string)

  predicate Passes(v: Voice, test: LangTest)
  {
    match test
    case Exactly(tag) => v.lang == tag
    case Prefixed(prefix) => StartsWith(v.lang, prefix)
  }

  /** The index of the first voice that passes `test` (`Array.prototype.find`, by position). */
  function FindIndex(voices: seq<Voice>, test: LangTest): (r: Option<nat>)
    ensures r.Some? ==> r.value < |voices| && Passes(voices[r.value], test)
    ensures r.Some? ==> forall j :: 0 <= j < r.value ==> !Passes(voices[j], test)
    ensures r.None? ==> forall j :: 0 <= j < |voices| ==> !Passes(voices[j], test)
  {
    if voices == [] then None
    else if Passes(voices[0], test) then Some(0)
    else match FindIndex(voices[1..], test)
      case None => None
      case Some(i) => Some(i + 1)
  }

  /** `voices.find(v => ...)`: the first voice that passes `test`, if any. */
  function Find(voices: seq<Voice>, test: LangTest): (r: Option<Voice>)
    ensures r.Some? ==> r.value in voices && Passes(r.value, test)
    ensures r.Some? ==>
      exists i :: 0 <= i < |voices| && voices[i] == r.value && forall j :: 0 <= j < i ==> !Passes(voices[j], test)
    ensures r.None? <==> forall j :: 0 <= j < |voices| ==> !Passes(voices[j], test)
  {
    match FindIndex(voices, test)
    case None => None
    case Some(i) => Some(voices[i])
  }

  /** The regional equivalents tried for a language when neither its locale nor its family is present. */
  const RegionalTable: map<string, seq<string>> := map[
    "es-ES" := ["es-MX", "es-AR", "es-CO"],
    "fr-FR" := ["fr-CA", "fr-BE"],
    "de-DE" := ["de-AT", "de-CH"],
    "it-IT" := ["it-CH"],
    "pt-BR" := ["pt-PT"],
    "en-US" := ["en-GB", "en-AU", "en-CA", "en-IN"]
  ]

  /** `languageMap[language] || []`. */
  function Alternatives(language: string): seq<string>
  {
    if language in RegionalTable then RegionalTable[language] else []
  }

  /** The first voice whose tag is one of `alts`, trying the alternatives in order. */
  function FirstRegional(voices: seq<Voice>, alts: seq<string>): Option<Voice>
  {
    if alts == [] then None
    else
      var found := Find(voices, Exactly(alts[0]));
      if found.Some? then found else FirstRegional(voices, alts[1..])
  }

  /** What `findBestVoice(language, voices)` returns; `None` stands for `null`. */
  function BestVoice(language: string, voices: seq<Voice>): Option<Voice>
  {
    var exact := Find(voices, Exactly(language));
    if exact.Some? then exact else
    var family := FirstDashField(language);
    var sameFamily := Find(voices, Prefixed(family));
    if sameFamily.Some? then sameFamily else
    var regional := FirstRegional(voices, Alternatives(language));
    if regional.Some? then regional else
    var english := Find(voices, Prefixed("en"));
    if english.Some? then english else
    if voices != [] then Some(voices[0]) else None
  }

  /**
   * `findBestVoice`: the chain of `find` calls, with the `for` loop over the
   * regional alternatives, returning as soon as one step finds a voice.
   */
  method FindBestVoice(language: string, voices: seq<Voice>) returns (voice: Option<Voice>)
    ensures voice == BestVoice(language, voices)
    ensures voice.None? <==> voices == []
    ensures voice.Some? ==> voice.value in voices
  {
    BestVoiceIsVoice(language, voices);
    voice := Find(voices, Exactly(language));
    if voice.Some? { return; }

    var family := FirstDashField(language);
    voice := Find(voices, Prefixed(family));
    if voice.Some? { return; }

    var alternatives := Alternatives(language);
    for k := 0 to |alternatives|
      invariant FirstRegional(voices, alternatives) == FirstRegional(voices, alternatives[k..])
    {
      assert alternatives[k..][1..] == alternatives[k + 1..];
      var alt := alternatives[k];
      voice := Find(voices, Exactly(alt));
      if voice.Some? { return; }
    }

    voice := Find(voices, Prefixed("en"));
    if voice.Some? { return; }

    voice := if voices != [] then Some(voices[0]) else None;
  }

  /** A voice is chosen exactly when there is at least one voice, and it is one of them. */
  lemma BestVoiceIsVoice(language: string, voices: seq<Voice>)
    ensures BestVoice(language, voices).None? <==> voices == []
    ensures BestVoice(language, voices).Some? ==> BestVoice(language, voices).value in voices
  {
    FirstRegionalIsVoice(voices, Alternatives(language));
  }

  lemma {:induction false} FirstRegionalIsVoice(voices: seq<Voice>, alts: seq<string>)
    ensures FirstRegional(voices, alts).Some? ==> FirstRegional(voices, alts).value in voices
  {
    if alts != [] {
      FirstRegionalIsVoice(voices, alts[1..]);
    }
  }

  /** When some voice carries exactly the requested tag, the first such voice is chosen. */
  lemma ExactMatchWins(language: string, voices: seq<Voice>, k: nat)
    requires k < |voices| && voices[k].lang == language
    requires forall j :: 0 <= j < k ==> voices[j].lang != language
    ensures BestVoice(language, voices) == Some(voices[k])
  {
    var i := FindIndex(voices, Exactly(language));
    assert i.Some? && i.value == k by {
      assert Passes(voices[k], Exactly(language));
    }
  }

  /**
   * With no exact match, the first voice whose tag starts with the requested
   * language's family (the text before its first `-`) is chosen.
   */
  lemma FamilyMatchWins(language: string, voices: seq<Voice>, k: nat)
    requires forall j :: 0 <= j < |voices| ==> voices[j].lang != language
    requires k < |voices| && StartsWith(voices[k].lang, FirstDashField(language))
    requires forall j :: 0 <= j < k ==> !StartsWith(voices[j].lang, FirstDashField(language))
    ensures BestVoice(language, voices) == Some(voices[k])
  {
    var family := Prefixed(FirstDashField(language));
    assert Find(voices, Exactly(language)).None? by {
      forall j | 0 <= j < |voices| ensures !Passes(voices[j], Exactly(language)) { }
    }
    var i := FindIndex(voices, family);
    assert i.Some? && i.value == k by {
      assert Passes(voices[k], family);
    }
  }

  /**
   * The selection with the regional step left out: exact locale, family,
   * any English voice, first voice.
   */
  function BestVoiceWithoutTable(language: string, voices: seq<Voice>): Option<Voice>
  {
    var exact := Find(voices, Exactly(language));
    if exact.Some? then exact else
    var sameFamily := Find(voices, Prefixed(FirstDashField(language)));
    if sameFamily.Some? then sameFamily else
    var english := Find(voices, Prefixed("en"));
    if english.Some? then english else
    if voices != [] then Some(voices[0]) else None
  }

  /** Every regional alternative listed for a language starts with that language's family. */
  lemma AlternativesShareFamily(language: string)
    ensures forall alt :: alt in Alternatives(language) ==> StartsWith(alt, FirstDashField(language))
  {
    if language in RegionalTable {
      assert FirstDashField(language) == language[..2] by {
        assert language[2] == '-';
        assert language[0] != '-' && language[1] != '-';
        assert FirstDashField(language[2..]) == [];
      }
    }
  }

  /** No regional alternative is tried successfully when no voice has any of the tags in `alts`. */
  lemma {:induction false} FirstRegionalMisses(voices: seq<Voice>, alts: seq<string>)
    requires forall j :: 0 <= j < |voices| ==> voices[j].lang !in alts
    ensures FirstRegional(voices, alts) == None
  {
    if alts != [] {
      assert Find(voices, Exactly(alts[0])).None? by {
        forall j | 0 <= j < |voices| ensures !Passes(voices[j], Exactly(alts[0])) {
          assert alts[0] in alts;
        }
      }
      FirstRegionalMisses(voices, alts[1..]);
    }
  }

  /**
   * The regional-equivalents table never changes the outcome: any voice it
   * could pick already shares the language's family, so the family step has
   * chosen a voice before the table is consulted.
   */
  lemma RegionalTableIsRedundant(language: string, voices: seq<Voice>)
    ensures BestVoice(language, voices) == BestVoiceWithoutTable(language, voices)
  {
    var family := FirstDashField(language);
    if Find(voices, Exactly(language)).None? && Find(voices, Prefixed(family)).None? {
      AlternativesShareFamily(language);
      forall j | 0 <= j < |voices| ensures voices[j].lang !in Alternatives(language) {
        assert !Passes(voices[j], Prefixed(family));
      }
      FirstRegionalMisses(voices, Alternatives(language));
    }
  }

  /**
   * With no voice in the requested locale or family, the first voice whose
   * tag starts with "en" is chosen.
   */
  lemma EnglishFallback(language: string, voices: seq<Voice>, k: nat)
    requires forall j :: 0 <= j < |voices| ==> !StartsWith(voices[j].lang, FirstDashField(language))
    requires k < |voices| && StartsWith(voices[k].lang, "en")
    requires forall j :: 0 <= j < k ==> !StartsWith(voices[j].lang, "en")
    ensures BestVoice(language, voices) == Some(voices[k])
  {
    RegionalTableIsRedundant(language, voices);
    assert FirstDashField(language) <= language;
    assert Find(voices, Exactly(language)).None? by {
      forall j | 0 <= j < |voices| ensures !Passes(voices[j], Exactly(language)) {
        assert !StartsWith(voices[j].lang, FirstDashField(language));
      }
    }
    assert Find(voices, Prefixed(FirstDashField(language))).None? by {
      forall j | 0 <= j < |voices| ensures !Passes(voices[j], Prefixed(FirstDashField(language))) { }
    }
    var i := FindIndex(voices, Prefixed("en"));
    assert i.Some? && i.value == k by {
      assert Passes(voices[k], Prefixed("en"));
    }
  }

  /** With no locale, family or English voice, the first voice is chosen. */
  lemma FirstVoiceLastResort(language: string, voices: seq<Voice>)
    requires voices != []
    requires forall j :: 0 <= j < |voices| ==> !StartsWith(voices[j].lang, FirstDashField(language))
    requires forall j :: 0 <= j < |voices| ==> !StartsWith(voices[j].lang, "en")
    ensures BestVoice(language, voices) == Some(voices[0])
  {
    RegionalTableIsRedundant(language, voices);
    assert FirstDashField(language) <= language;
    assert Find(voices, Exactly(language)).None? by {
      forall j | 0 <= j < |voices| ensures !Passes(voices[j], Exactly(language)) {
        assert !StartsWith(voices[j].lang, FirstDashField(language));
      }
    }
    assert Find(voices, Prefixed(FirstDashField(language))).None? by {
      forall j | 0 <= j < |voices| ensures !Passes(voices[j], Prefixed(FirstDashField(language))) { }
    }
    assert Find(voices, Prefixed("en")).None? by {
      forall j | 0 <= j < |voices| ensures !Passes(voices[j], Prefixed("en")) { }
    }
  }
}
