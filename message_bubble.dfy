/**
 * The read-aloud button of a chat message. A click while speaking stops; a
 * click otherwise asks the backend for natural speech first and falls back to
 * the browser's speech synthesis, choosing a voice for the user's language and
 * speaking the text with its whitespace normalised. The backend audio, the
 * browser's voice list and the speech events are inputs; the timers between
 * the steps are not part of this model.
 */
module MessageBubble {
  import opened Wrappers
  import opened Strings
  import opened JsValues
  import SpeechRecognition
  import TtsPlayer

  // ---- the language map ----

  /** The component's own `langMap`. */
  function LangMap(key: string): Option<string> {
    if key == "en" then Some("en-US")
    else if key == "hi" then Some("hi-IN")
    else if key == "pa" then Some("pa-IN")
    else if key == "bn" then Some("bn-IN")
    else if key == "te" then Some("te-IN")
    else if key == "mr" then Some("mr-IN")
    else if key == "ta" then Some("ta-IN")
    else if key == "gu" then Some("gu-IN")
    else None
  }

  /** `langMap[currentLanguage] || 'en-US'` */
  function TargetLang(language: JsValue): string {
    LangMap(ToJsString(language)).GetOr("en-US")
  }

  /** The bubble speaks every language with the tag speech input uses for it, `en-US` for unknown ones. */
  lemma LanguageMapsAgree(language: JsValue)
    ensures TargetLang(language) == SpeechRecognition.SpeechLanguageCode(language)
    ensures ToJsString(language) !in SpeechRecognition.Codes ==> TargetLang(language) == "en-US"
  {
  }

  // ---- voice selection ----

  /** A `SpeechSynthesisVoice`: its name, BCP 47 tag and `localService` flag. */
  datatype Voice = Voice(name: string, lang: string, localService: JsValue)

  /** `voices.find(p)`, as the index of the first voice that satisfies `p`. */
  function FindFrom(voices: seq<Voice>, p: Voice -> bool, from: nat): (r: Option<nat>)
    requires from <= |voices|
    ensures r.Some? ==> from <= r.value < |voices| && p(voices[r.value]) && forall j :: from <= j < r.value ==> !p(voices[j])
    ensures r.None? ==> forall j :: from <= j < |voices| ==> !p(voices[j])
    decreases |voices| - from
  {
    if from == |voices| then None
    else if p(voices[from]) then Some(from)
    else FindFrom(voices, p, from + 1)
  }

  function Find(voices: seq<Voice>, p: Voice -> bool): (r: Option<nat>)
    ensures r.Some? ==> r.value < |voices| && p(voices[r.value]) && forall j :: 0 <= j < r.value ==> !p(voices[j])
    ensures r.None? ==> forall j :: 0 <= j < |voices| ==> !p(voices[j])
  {
    FindFrom(voices, p, 0)
  }

  /** `a.find(..) || b.find(..) || ..`: the first alternative that finds something. */
  function FirstFound(voices: seq<Voice>, alternatives: seq<Voice -> bool>): (r: Option<nat>)
    ensures r.Some? ==> r.value < |voices|
  {
    if alternatives == [] then None
    else match Find(voices, alternatives[0])
      case Some(i) => Some(i)
      case None => FirstFound(voices, alternatives[1..])
  }

  /** `targetLang.split('-')[0]` */
  function LangCode(target: string): string {
    Split(target, '-')[0]
  }

  /** `v` is what `voices.find(p)` returns: it satisfies `p`, and no voice before it does. */
  predicate FirstWith(voices: seq<Voice>, v: Voice, p: Voice -> bool) {
    exists k :: 0 <= k < |voices| && voices[k] == v && p(v) && forall j :: 0 <= j < k ==> !p(voices[j])
  }

  lemma FoundFirst(voices: seq<Voice>, p: Voice -> bool)
    requires Find(voices, p).Some?
    ensures FirstWith(voices, voices[Find(voices, p).value], p)
  {
    var k := Find(voices, p).value;
    assert 0 <= k < |voices| && voices[k] == voices[k];
  }

  /**
   * The voice `speakWithVoices` picks: the first voice with the exact tag,
   * else the first whose tag starts with the language code, else the first
   * English voice, else the first voice.
   */
  function SelectVoice(voices: seq<Voice>, target: string): (r: Option<Voice>)
    ensures r.None? <==> voices == []
    ensures r.Some? ==> r.value in voices
    ensures (exists j :: 0 <= j < |voices| && voices[j].lang == target) ==>
      r.Some? && FirstWith(voices, r.value, (v: Voice) => v.lang == target)
    ensures (forall j :: 0 <= j < |voices| ==> voices[j].lang != target) &&
            (exists j :: 0 <= j < |voices| && StartsWith(voices[j].lang, LangCode(target))) ==>
      r.Some? && FirstWith(voices, r.value, (v: Voice) => StartsWith(v.lang, LangCode(target)))
    ensures (forall j :: 0 <= j < |voices| ==> !StartsWith(voices[j].lang, LangCode(target)) && voices[j].lang != target) &&
            (exists j :: 0 <= j < |voices| && Contains(voices[j].lang, "en")) ==>
      r.Some? && FirstWith(voices, r.value, (v: Voice) => Contains(v.lang, "en"))
    ensures voices != [] && (forall j :: 0 <= j < |voices| ==>
              voices[j].lang != target && !StartsWith(voices[j].lang, LangCode(target)) && !Contains(voices[j].lang, "en")) ==>
      r == Some(voices[0])
  {
    if voices == [] then None
    else
      var code := LangCode(target);
      var isExact := (v: Voice) => v.lang == target;
      var isPrefix := (v: Voice) => StartsWith(v.lang, code);
      var isEnglish := (v: Voice) => Contains(v.lang, "en");
      var exact, prefix, english := Find(voices, isExact), Find(voices, isPrefix), Find(voices, isEnglish);
      if exact.Some? then FoundFirst(voices, isExact); Some(voices[exact.value])
      else if prefix.Some? then FoundFirst(voices, isPrefix); Some(voices[prefix.value])
      else if english.Some? then FoundFirst(voices, isEnglish); Some(voices[english.value])
      else Some(voices[0])
  }

  /**
   * `tryFallbackEnglish`'s voice: the first English voice whose
   * `localService` is not `false`, else the first English voice, else the
   * first voice.
   */
  function FallbackVoice(voices: seq<Voice>): (r: Option<Voice>)
    ensures r.None? <==> voices == []
    ensures r.Some? ==> r.value in voices
    ensures (exists j :: 0 <= j < |voices| && Contains(voices[j].lang, "en") && voices[j].localService != Bool(false)) ==>
      r.Some? && FirstWith(voices, r.value, (v: Voice) => Contains(v.lang, "en") && v.localService != Bool(false))
    ensures (forall j :: 0 <= j < |voices| ==> !Contains(voices[j].lang, "en") || voices[j].localService == Bool(false)) &&
            (exists j :: 0 <= j < |voices| && Contains(voices[j].lang, "en")) ==>
      r.Some? && FirstWith(voices, r.value, (v: Voice) => Contains(v.lang, "en"))
    ensures voices != [] && (forall j :: 0 <= j < |voices| ==> !Contains(voices[j].lang, "en")) ==> r == Some(voices[0])
  {
    if voices == [] then None
    else
      var isLocal := (v: Voice) => Contains(v.lang, "en") && !StrictEquals(v.localService, Bool(false));
      var isEnglish := (v: Voice) => Contains(v.lang, "en");
      var local, english := Find(voices, isLocal), Find(voices, isEnglish);
      if local.Some? then FoundFirst(voices, isLocal); Some(voices[local.value])
      else if english.Some? then FoundFirst(voices, isEnglish); Some(voices[english.value])
      else Some(voices[0])
  }

  // ---- text normalisation ----

  predicate IsStop(c: char) {
    c == '.' || c == '!' || c == '?'
  }

  /** `.replace(/([.!?])\s+/g, '$1 ')` */
  function PunctSpace(s: string): (r: string)
    ensures s != [] ==> r != [] && r[0] == s[0]
    decreases |s|
  {
    if s == [] then []
    else if IsStop(s[0]) && |s| > 1 && IsJsSpace(s[1]) then [s[0], ' '] + PunctSpace(TrimStart(s[1..]))
    else [s[0]] + PunctSpace(s[1..])
  }

  /** The text without its whitespace: what a whitespace rewrite leaves alone. */
  function Visible(s: string): string {
    if s == [] then [] else (if IsJsSpace(s[0]) then [] else [s[0]]) + Visible(s[1..])
  }

  /** Every stop followed by whitespace is followed by exactly one plain space. */
  predicate SpacedStops(r: string) {
    forall i :: 0 <= i < |r| - 1 && IsStop(r[i]) && IsJsSpace(r[i + 1]) ==>
      r[i + 1] == ' ' && (i + 2 < |r| ==> !IsJsSpace(r[i + 2]))
  }

  /** No stop is followed by whitespace. */
  predicate NoStopBeforeSpace(s: string) {
    forall i :: 0 <= i < |s| - 1 && IsStop(s[i]) ==> !IsJsSpace(s[i + 1])
  }

  lemma {:induction false} VisibleTrimStart(s: string)
    ensures Visible(TrimStart(s)) == Visible(s)
  {
    if s != [] && IsJsSpace(s[0]) {
      VisibleTrimStart(s[1..]);
    }
  }

  /**
   * The punctuation rewrite changes whitespace only, and afterwards each stop
   * that is followed by whitespace is followed by a single space and then
   * by the next visible character.
   */
  lemma PunctSpaceRewrite(s: string)
    ensures Visible(PunctSpace(s)) == Visible(s)
    ensures SpacedStops(PunctSpace(s))
  {
    PunctSpaceVisible(s);
    PunctSpaceSpaced(s);
  }

  lemma {:induction false} PunctSpaceVisible(s: string)
    ensures Visible(PunctSpace(s)) == Visible(s)
    decreases |s|
  {
    if s == [] {
    } else if IsStop(s[0]) && |s| > 1 && IsJsSpace(s[1]) {
      PunctSpaceVisible(TrimStart(s[1..]));
      VisibleTrimStart(s[1..]);
      VisibleAbsorbed(s, PunctSpace(TrimStart(s[1..])));
    } else {
      PunctSpaceVisible(s[1..]);
      VisibleCons(s[0], PunctSpace(s[1..]));
      VisibleCons(s[0], s[1..]);
      assert s == [s[0]] + s[1..];
    }
  }

  lemma VisibleCons(c: char, rest: string)
    ensures Visible([c] + rest) == (if IsJsSpace(c) then [] else [c]) + Visible(rest)
  {
    assert ([c] + rest)[1..] == rest;
  }

  /** The absorbing step: a stop, one space, and the rewritten rest after the whitespace run. */
  lemma VisibleAbsorbed(s: string, rest: string)
    requires |s| > 1 && IsStop(s[0]) && IsJsSpace(s[1])
    requires Visible(rest) == Visible(s[1..])
    ensures Visible([s[0], ' '] + rest) == Visible(s)
  {
    assert [s[0], ' '] + rest == [s[0]] + ([' '] + rest);
    VisibleCons(s[0], [' '] + rest);
    VisibleCons(' ', rest);
    VisibleCons(s[0], s[1..]);
    assert s == [s[0]] + s[1..];
  }

  lemma {:induction false} PunctSpaceSpaced(s: string)
    ensures SpacedStops(PunctSpace(s))
    decreases |s|
  {
    if s == [] {
    } else if IsStop(s[0]) && |s| > 1 && IsJsSpace(s[1]) {
      PunctSpaceSpaced(TrimStart(s[1..]));
      SpacedAfterStop(s[0], PunctSpace(TrimStart(s[1..])));
    } else {
      PunctSpaceSpaced(s[1..]);
      SpacedCons(s[0], PunctSpace(s[1..]));
    }
  }

  lemma SpacedAfterStop(c: char, rest: string)
    requires SpacedStops(rest) && (rest != [] ==> !IsJsSpace(rest[0]))
    ensures SpacedStops([c, ' '] + rest)
  {
    var r := [c, ' '] + rest;
    forall i | 0 <= i < |r| - 1 && IsStop(r[i]) && IsJsSpace(r[i + 1])
      ensures r[i + 1] == ' ' && (i + 2 < |r| ==> !IsJsSpace(r[i + 2]))
    {
      if i >= 2 {
        assert r[i] == rest[i - 2] && r[i + 1] == rest[i - 1];
      } else if i == 0 && 2 < |r| {
        assert r[2] == rest[0];
      }
    }
  }

  lemma SpacedCons(c: char, rest: string)
    requires SpacedStops(rest) && !(IsStop(c) && rest != [] && IsJsSpace(rest[0]))
    ensures SpacedStops([c] + rest)
  {
    var r := [c] + rest;
    forall i | 1 <= i < |r| - 1 && IsStop(r[i]) && IsJsSpace(r[i + 1])
      ensures r[i + 1] == ' ' && (i + 2 < |r| ==> !IsJsSpace(r[i + 2]))
    {
      assert r[i] == rest[i - 1] && r[i + 1] == rest[i];
    }
    assert |r| > 1 ==> r[1] == rest[0];
  }

  /** A text in which no stop is followed by whitespace is left as it is. */
  lemma {:induction false} PunctSpaceIdentity(s: string)
    requires NoStopBeforeSpace(s)
    ensures PunctSpace(s) == s
    decreases |s|
  {
    if s != [] {
      assert NoStopBeforeSpace(s[1..]) by {
        forall i | 0 <= i < |s[1..]| - 1 && IsStop(s[1..][i])
          ensures !IsJsSpace(s[1..][i + 1])
        {
          assert s[1..][i] == s[i + 1] && s[1..][i + 1] == s[i + 2];
        }
      }
      PunctSpaceIdentity(s[1..]);
      assert !(IsStop(s[0]) && |s| > 1 && IsJsSpace(s[1]));
      assert s == [s[0]] + s[1..];
    }
  }

  /** Every whitespace character is a plain space and none is followed by another. */
  predicate Collapsed(r: string) {
    forall i :: 0 <= i < |r| && IsJsSpace(r[i]) ==> r[i] == ' ' && (i + 1 < |r| ==> !IsJsSpace(r[i + 1]))
  }

  lemma TrimStartShorter(s: string)
    requires s != [] && IsJsSpace(s[0])
    ensures |TrimStart(s)| < |s|
  {
  }

  /** `.replace(/\s+/g, ' ')` */
  function CollapseRuns(s: string): (r: string)
    ensures s != [] ==> r != [] && (IsJsSpace(r[0]) <==> IsJsSpace(s[0]))
    decreases |s|
  {
    if s == [] then []
    else if IsJsSpace(s[0]) then
      TrimStartShorter(s);
      " " + CollapseRuns(TrimStart(s))
    else [s[0]] + CollapseRuns(s[1..])
  }

  /** The longest prefix of `s` that holds no whitespace. */
  function WordPrefix(s: string): (w: string)
    ensures |w| <= |s| && w == s[..|w|]
    ensures forall i :: 0 <= i < |w| ==> !IsJsSpace(w[i])
    ensures |w| < |s| ==> IsJsSpace(s[|w|])
    ensures s != [] && !IsJsSpace(s[0]) ==> w != []
  {
    if s == [] || IsJsSpace(s[0]) then [] else [s[0]] + WordPrefix(s[1..])
  }

  /** A non-empty run of non-whitespace characters. */
  predicate IsWord(w: string) {
    w != [] && forall i :: 0 <= i < |w| ==> !IsJsSpace(w[i])
  }

  /** The words of a text: its maximal runs of non-whitespace characters, in order. */
  function Words(s: string): seq<string>
    decreases |s|
  {
    var t := TrimStart(s);
    if t == [] then []
    else
      var w := WordPrefix(t);
      [w] + Words(t[|w|..])
  }

  /** Every word is non-empty and holds no whitespace. */
  lemma {:induction false} WordsAreWords(s: string)
    ensures forall k :: 0 <= k < |Words(s)| ==> IsWord(Words(s)[k])
    decreases |s|
  {
    var t := TrimStart(s);
    if t != [] {
      var w := WordPrefix(t);
      var rest := Words(t[|w|..]);
      WordsAreWords(t[|w|..]);
      assert Words(s) == [w] + rest;
      forall k | 0 <= k < |[w] + rest| ensures IsWord(([w] + rest)[k]) {
        if k > 0 {
          assert ([w] + rest)[k] == rest[k - 1];
        }
      }
    }
  }

  /** Collapsing keeps every visible character, in order. */
  lemma {:induction false} CollapseRunsVisible(s: string)
    ensures Visible(CollapseRuns(s)) == Visible(s)
    decreases |s|
  {
    if s == [] {
    } else if IsJsSpace(s[0]) {
      TrimStartShorter(s);
      CollapseRunsVisible(TrimStart(s));
      VisibleCons(' ', CollapseRuns(TrimStart(s)));
      VisibleTrimStart(s);
    } else {
      CollapseRunsVisible(s[1..]);
      VisibleCons(s[0], CollapseRuns(s[1..]));
      VisibleCons(s[0], s[1..]);
      assert s == [s[0]] + s[1..];
    }
  }

  /** A word passes through the collapse unchanged. */
  lemma {:induction false} CollapseAfterWord(w: string, r: string)
    requires forall i :: 0 <= i < |w| ==> !IsJsSpace(w[i])
    ensures CollapseRuns(w + r) == w + CollapseRuns(r)
    decreases |w|
  {
    if w == [] {
      assert w + r == r;
    } else {
      assert (w + r)[0] == w[0] && (w + r)[1..] == w[1..] + r;
      CollapseAfterWord(w[1..], r);
      assert w == [w[0]] + w[1..];
    }
  }

  /** A leading whitespace run is a leading space after collapsing, which the trim removes. */
  lemma CollapseLeadingRun(s: string)
    ensures Trim(CollapseRuns(s)) == Trim(CollapseRuns(TrimStart(s)))
  {
    if s != [] && IsJsSpace(s[0]) {
      var c := CollapseRuns(TrimStart(s));
      assert CollapseRuns(s) == " " + c;
      assert (" " + c)[1..] == c;
      assert TrimStart(" " + c) == TrimStart(c);
    }
  }

  lemma WordsTrimStart(s: string)
    ensures Words(TrimStart(s)) == Words(s)
  {
    var t := TrimStart(s);
    assert TrimStart(t) == t;
  }

  lemma JoinCons(sep: string, w: string, ws: seq<string>)
    requires ws != []
    ensures Join(sep, [w] + ws) == w + sep + Join(sep, ws)
  {
    assert ([w] + ws)[1..] == ws;
  }

  /** A word, one space and a text that starts visible: trimming cuts only the end. */
  lemma TrimWordSpace(w: string, c: string)
    requires w != [] && !IsJsSpace(w[0]) && c != [] && !IsJsSpace(c[0])
    ensures Trim(w + " " + c) == w + " " + Trim(c)
  {
    assert (w + " " + c)[0] == w[0];
    TrimStartsVisible(w + " " + c);
    TrimEndKeepsPrefix(w + " ", c);
    TrimStartsVisible(c);
  }

  /** A text that starts visible begins with its first word, which the collapse keeps. */
  lemma WordStep(t: string)
    requires t != [] && !IsJsSpace(t[0])
    ensures var w := WordPrefix(t);
      IsWord(w) && CollapseRuns(t) == w + CollapseRuns(t[|w|..]) && Words(t) == [w] + Words(t[|w|..])
  {
    var w := WordPrefix(t);
    assert t == w + t[|w|..];
    CollapseAfterWord(w, t[|w|..]);
    assert TrimStart(t) == t;
  }

  /** A whitespace run collapses to one space and separates no words. */
  lemma SpaceStep(r: string)
    requires r != [] && IsJsSpace(r[0])
    ensures CollapseRuns(r) == " " + CollapseRuns(TrimStart(r)) && Words(r) == Words(TrimStart(r))
  {
    WordsTrimStart(r);
  }

  /** The last word: what follows it is blank, so the spoken text ends with it. */
  lemma LastWord(w: string, r: string)
    requires IsWord(w) && TrimStart(r) == []
    ensures Trim(w + CollapseRuns(r)) == w && Words(r) == []
  {
    BlankCollapse(r);
    TrimWordTail(w, CollapseRuns(r));
  }

  lemma BlankCollapse(r: string)
    requires TrimStart(r) == []
    ensures AllJsSpace(CollapseRuns(r)) && Words(r) == []
  {
    if r != [] {
      SpaceStep(r);
      assert CollapseRuns(r) == " ";
    }
  }

  lemma TrimWordTail(w: string, tail: string)
    requires IsWord(w) && AllJsSpace(tail)
    ensures Trim(w + tail) == w
  {
    assert !IsJsSpace(w[0]) && !IsJsSpace(w[|w| - 1]);
    assert (w + tail)[0] == w[0];
    TrimStartsVisible(w + tail);
    TrimEndPadded(w, tail);
  }

  /** A word followed by more words: one space between it and the rest. */
  lemma MiddleWord(w: string, r: string)
    requires IsWord(w) && r != [] && IsJsSpace(r[0]) && TrimStart(r) != []
    requires Trim(CollapseRuns(TrimStart(r))) == Join(" ", Words(TrimStart(r)))
    ensures Trim(w + CollapseRuns(r)) == Join(" ", [w] + Words(r))
  {
    var u := TrimStart(r);
    var c := CollapseRuns(u);
    SpaceStep(r);
    ConcatAssoc(w, " ", c);
    TrimWordSpace(w, c);
    assert Words(u) != [];
    JoinCons(" ", w, Words(u));
  }

  /**
   * `.replace(/\s+/g, ' ').trim()` is the text's words joined with single
   * spaces: no word is lost, split or merged.
   */
  lemma {:induction false} CollapseRunsWords(s: string)
    ensures Trim(CollapseRuns(s)) == Join(" ", Words(s))
    decreases |s|
  {
    var t := TrimStart(s);
    CollapseLeadingRun(s);
    WordsTrimStart(s);
    if t != [] {
      var w := WordPrefix(t);
      var r := t[|w|..];
      WordStep(t);
      var u := TrimStart(r);
      if u == [] {
        LastWord(w, r);
      } else {
        assert r[0] == t[|w|];
        CollapseRunsWords(u);
        MiddleWord(w, r);
      }
    }
  }

  lemma CollapsedCons(c: char, x: string)
    requires Collapsed(x)
    requires IsJsSpace(c) ==> c == ' ' && (x == [] || !IsJsSpace(x[0]))
    ensures Collapsed([c] + x)
  {
    forall i | 0 <= i < |[c] + x| && IsJsSpace(([c] + x)[i])
      ensures ([c] + x)[i] == ' ' && (i + 1 < |[c] + x| ==> !IsJsSpace(([c] + x)[i + 1]))
    {
      if i > 0 {
        assert ([c] + x)[i] == x[i - 1];
        if i + 1 < |[c] + x| {
          assert ([c] + x)[i + 1] == x[i];
        }
      }
    }
  }

  lemma AllJsSpaceConcat(a: string, b: string)
    ensures AllJsSpace(a + b) <==> AllJsSpace(a) && AllJsSpace(b)
  {
    if AllJsSpace(a) && AllJsSpace(b) {
      forall i | 0 <= i < |a + b| ensures IsJsSpace((a + b)[i]) {
        if i < |a| { assert (a + b)[i] == a[i]; } else { assert (a + b)[i] == b[i - |a|]; }
      }
    }
    if AllJsSpace(a + b) {
      forall i | 0 <= i < |a| ensures IsJsSpace(a[i]) { assert (a + b)[i] == a[i]; }
      forall i | 0 <= i < |b| ensures IsJsSpace(b[i]) { assert (a + b)[|a| + i] == b[i]; }
    }
  }

  /** Collapsing leaves single plain spaces. */
  lemma {:induction false} CollapseRunsCollapsed(s: string)
    ensures Collapsed(CollapseRuns(s))
    decreases |s|
  {
    if s == [] {
    } else if IsJsSpace(s[0]) {
      TrimStartShorter(s);
      CollapseRunsCollapsed(TrimStart(s));
      CollapsedCons(' ', CollapseRuns(TrimStart(s)));
    } else {
      CollapseRunsCollapsed(s[1..]);
      CollapsedCons(s[0], CollapseRuns(s[1..]));
    }
  }

  lemma LeadingSpaces(s: string, t: string)
    requires t == TrimStart(s)
    ensures AllJsSpace(t) <==> AllJsSpace(s)
  {
    var k := |s| - |t|;
    SliceSplit(s, k);
    AllJsSpaceConcat(s[..k], s[k..]);
  }

  lemma SliceSplit(s: string, k: nat)
    requires k <= |s|
    ensures s == s[..k] + s[k..]
  {
  }

  /** Collapsing keeps blank text blank and makes nothing else blank. */
  lemma {:induction false} CollapseRunsBlank(s: string)
    ensures AllJsSpace(CollapseRuns(s)) <==> AllJsSpace(s)
    decreases |s|
  {
    if s == [] {
    } else if IsJsSpace(s[0]) {
      TrimStartShorter(s);
      CollapseRunsBlank(TrimStart(s));
      SpaceRunBlank(s);
    } else {
      WordNotBlank(s);
    }
  }

  /** A leading run of whitespace collapses to one space, so blankness carries over from the rest. */
  lemma SpaceRunBlank(s: string)
    requires s != [] && IsJsSpace(s[0])
    requires AllJsSpace(CollapseRuns(TrimStart(s))) <==> AllJsSpace(TrimStart(s))
    ensures AllJsSpace(CollapseRuns(s)) <==> AllJsSpace(s)
  {
    var t := TrimStart(s);
    assert CollapseRuns(s) == " " + CollapseRuns(t);
    AllJsSpaceConcat(" ", CollapseRuns(t));
    LeadingSpaces(s, t);
  }

  lemma WordNotBlank(s: string)
    requires s != [] && !IsJsSpace(s[0])
    ensures !AllJsSpace(s) && !AllJsSpace(CollapseRuns(s))
  {
  }

  lemma {:induction false} TrimStartPunct(u: string)
    ensures TrimStart(PunctSpace(u)) == PunctSpace(TrimStart(u))
    decreases |u|
  {
    if u != [] && IsJsSpace(u[0]) {
      var p := PunctSpace(u[1..]);
      assert PunctSpace(u) == [u[0]] + p;
      assert ([u[0]] + p)[1..] == p;
      TrimStartPunct(u[1..]);
    }
  }

  /** The first replacement is absorbed by the second: both leave one space after a stop. */
  lemma {:induction false} PunctAbsorbed(s: string)
    ensures CollapseRuns(PunctSpace(s)) == CollapseRuns(s)
    decreases |s|
  {
    if s == [] {
    } else if IsStop(s[0]) && |s| > 1 && IsJsSpace(s[1]) {
      PunctAbsorbed(TrimStart(s[1..]));
      AbsorbedAtStop(s);
    } else if IsJsSpace(s[0]) {
      TrimStartShorter(s);
      PunctAbsorbed(TrimStart(s));
      AbsorbedAtSpace(s);
    } else {
      PunctAbsorbed(s[1..]);
      AbsorbedAtOther(s);
    }
  }

  /** A stop and the whitespace after it become the stop and one space either way. */
  lemma AbsorbedAtStop(s: string)
    requires |s| > 1 && IsStop(s[0]) && IsJsSpace(s[1])
    requires CollapseRuns(PunctSpace(TrimStart(s[1..]))) == CollapseRuns(TrimStart(s[1..]))
    ensures CollapseRuns(PunctSpace(s)) == CollapseRuns(s)
  {
    StopRewritten(s);
    StopOriginal(s);
  }

  /** After the rewrite a stop is followed by one space and the rewritten rest, which starts visible. */
  lemma StopRewritten(s: string)
    requires |s| > 1 && IsStop(s[0]) && IsJsSpace(s[1])
    ensures CollapseRuns(PunctSpace(s)) == [s[0]] + (" " + CollapseRuns(PunctSpace(TrimStart(s[1..]))))
  {
    var t := TrimStart(s[1..]);
    var x := PunctSpace(t);
    TrimStartPunct(t);
    assert PunctSpace(s) == [s[0], ' '] + x;
    ConcatAssoc([s[0]], [' '], x);
    assert [s[0]] + [' '] == [s[0], ' '];
    StopNotSpace(s[0]);
    CollapseVisibleCons(s[0], [' '] + x);
    CollapseSpaceCons(x);
  }

  /** Before the rewrite a stop and a whitespace run collapse to the stop and one space. */
  lemma StopOriginal(s: string)
    requires |s| > 1 && IsStop(s[0]) && IsJsSpace(s[1])
    ensures CollapseRuns(s) == [s[0]] + (" " + CollapseRuns(TrimStart(s[1..])))
  {
    assert s[1..][0] == s[1];
    CollapseRunsHead(s);
  }

  lemma StopNotSpace(c: char)
    requires IsStop(c)
    ensures !IsJsSpace(c)
  {
  }

  lemma CollapseRunsHead(s: string)
    requires s != [] && !IsJsSpace(s[0])
    ensures CollapseRuns(s) == [s[0]] + CollapseRuns(s[1..])
  {
  }

  lemma CollapseVisibleCons(c: char, y: string)
    requires !IsJsSpace(c)
    ensures CollapseRuns([c] + y) == [c] + CollapseRuns(y)
  {
    assert ([c] + y)[1..] == y;
  }

  /** A space before a text that starts visible stays one space. */
  lemma CollapseSpaceCons(x: string)
    requires x == [] || !IsJsSpace(x[0])
    ensures CollapseRuns([' '] + x) == " " + CollapseRuns(x)
  {
    assert ([' '] + x)[1..] == x;
    assert TrimStart(x) == x;
  }

  /** A leading whitespace run collapses the same way before and after the rewrite. */
  lemma AbsorbedAtSpace(s: string)
    requires s != [] && IsJsSpace(s[0])
    requires CollapseRuns(PunctSpace(TrimStart(s))) == CollapseRuns(TrimStart(s))
    ensures CollapseRuns(PunctSpace(s)) == CollapseRuns(s)
  {
    var p := PunctSpace(s);
    assert p[0] == s[0];
    TrimStartPunct(s);
    calc {
      CollapseRuns(p);
      " " + CollapseRuns(TrimStart(p));
      " " + CollapseRuns(PunctSpace(TrimStart(s)));
      " " + CollapseRuns(TrimStart(s));
      CollapseRuns(s);
    }
  }

  /** Any other character is kept by both rewrites. */
  lemma AbsorbedAtOther(s: string)
    requires s != [] && !IsJsSpace(s[0]) && !(IsStop(s[0]) && |s| > 1 && IsJsSpace(s[1]))
    requires CollapseRuns(PunctSpace(s[1..])) == CollapseRuns(s[1..])
    ensures CollapseRuns(PunctSpace(s)) == CollapseRuns(s)
  {
    var p := PunctSpace(s[1..]);
    assert PunctSpace(s) == [s[0]] + p;
    assert ([s[0]] + p)[1..] == p;
  }

  /** The text `speakWithVoices` hands to the synthesiser. */
  function SpokenText(text: string): string {
    Trim(CollapseRuns(PunctSpace(text)))
  }

  lemma CollapsedSlice(c: string, i: nat, j: nat)
    requires Collapsed(c) && i <= j <= |c|
    ensures Collapsed(c[i..j])
  {
    forall k | 0 <= k < j - i && IsJsSpace(c[i..j][k])
      ensures c[i..j][k] == ' ' && (k + 1 < j - i ==> !IsJsSpace(c[i..j][k + 1]))
    {
      assert c[i..j][k] == c[i + k];
      if k + 1 < j - i {
        assert c[i..j][k + 1] == c[i + k + 1];
      }
    }
  }

  lemma TrimCollapsed(c: string)
    requires Collapsed(c)
    ensures Collapsed(Trim(c))
  {
    var t := TrimStart(c);
    CollapsedSlice(c, |c| - |t|, |c|);
    CollapsedSlice(t, 0, |TrimEnd(t)|);
  }

  /**
   * The spoken text is the message with every whitespace run one space, and
   * trimmed; it is empty, and nothing is spoken, exactly when the message is
   * blank.
   */
  lemma SpokenTextShape(text: string)
    ensures SpokenText(text) == Trim(CollapseRuns(text))
    ensures SpokenText(text) == Join(" ", Words(text))
    ensures Visible(SpokenText(text)) == Visible(text)
    ensures Collapsed(SpokenText(text))
    ensures SpokenText(text) == [] || (!IsJsSpace(SpokenText(text)[0]) && !IsJsSpace(SpokenText(text)[|SpokenText(text)| - 1]))
    ensures SpokenText(text) == [] <==> AllJsSpace(text)
  {
    var c := CollapseRuns(text);
    assert SpokenText(text) == Trim(c) by {
      PunctAbsorbed(text);
    }
    CollapseRunsWords(text);
    CollapseRunsVisible(text);
    VisibleTrim(c);
    TrimmedCollapse(text);
    TrimEnds(c);
  }

  lemma {:induction false} VisibleConcat(a: string, b: string)
    ensures Visible(a + b) == Visible(a) + Visible(b)
    decreases |a|
  {
    if a == [] {
      assert a + b == b;
    } else {
      assert (a + b)[1..] == a[1..] + b;
      VisibleConcat(a[1..], b);
    }
  }

  lemma {:induction false} VisibleBlank(b: string)
    requires AllJsSpace(b)
    ensures Visible(b) == []
    decreases |b|
  {
    if b != [] {
      VisibleBlank(b[1..]);
    }
  }

  /** Trimming removes whitespace only. */
  lemma VisibleTrim(c: string)
    ensures Visible(Trim(c)) == Visible(c)
  {
    VisibleTrimStart(c);
    VisibleTrimEnd(TrimStart(c));
  }

  lemma VisibleTrimEnd(t: string)
    ensures Visible(TrimEnd(t)) == Visible(t)
  {
    var r := TrimEnd(t);
    var tail := t[|r|..];
    assert t == r + tail;
    VisibleConcat(r, tail);
    VisibleBlank(tail);
    assert Visible(r) + [] == Visible(r);
  }

  lemma TrimEnds(c: string)
    ensures Trim(c) == [] || (!IsJsSpace(Trim(c)[0]) && !IsJsSpace(Trim(c)[|Trim(c)| - 1]))
  {
  }

  lemma TrimmedCollapse(text: string)
    ensures Collapsed(Trim(CollapseRuns(text)))
    ensures Trim(CollapseRuns(text)) == [] <==> AllJsSpace(text)
  {
    CollapseRunsCollapsed(text);
    CollapseRunsBlank(text);
    TrimCollapsed(CollapseRuns(text));
  }

  // ---- the speak button ----

  /** A `SpeechSynthesisUtterance` as configured here. */
  datatype Utterance = Utterance(text: string, voice: Option<Voice>, lang: string)

  /** How a click ended. */
  datatype Spoken =
    | Stopped            // it was speaking: speech is cancelled
    | Backend            // the backend's audio was played
    | Unsupported        // no speech synthesis in this browser
    | WaitingForVoices   // no voices yet: a later retry, not part of this model
    | NothingToSay       // the normalised text is empty
    | Browser(u: Utterance)

  /** The backend returned audio worth playing: `audioData && audioData.audioBase64`. */
  predicate BackendAudio(speech: Option<TtsPlayer.Speech>) {
    speech.Some? && Truthy(speech.value.audioBase64)
  }

  function BrowserUtterance(language: JsValue, text: string, voices: seq<Voice>): Utterance {
    Utterance(SpokenText(text), SelectVoice(voices, TargetLang(language)), TargetLang(language))
  }

  function EnglishUtterance(text: string, voices: seq<Voice>): (u: Option<Utterance>)
    ensures u.None? <==> voices == []
    ensures u.Some? ==> u.value.lang == "en-US" && u.value.text == text && u.value.voice == FallbackVoice(voices)
  {
    match FallbackVoice(voices)
    case None => None
    case Some(v) => Some(Utterance(text, Some(v), "en-US"))
  }

  /** The bubble's `isSpeaking` and `speechSynthesis` state. */
  class Bubble {
    var isSpeaking: bool
    var utterance: Option<Utterance>

    constructor()
      ensures !isSpeaking && utterance == None
    {
      isSpeaking := false;
      utterance := None;
    }

    /**
     * `handleSpeak`. `speech` is what `synthesizeSpeech` resolved to, `played`
     * whether `playAudio` then resolved; `supported` says whether the browser
     * has speech synthesis, `voicesNow` is `getVoices()` and `voicesLoaded`
     * the voices loaded when the bubble mounted.
     */
    method Click(language: JsValue, text: string, speech: Option<TtsPlayer.Speech>, played: bool,
                 supported: bool, voicesNow: seq<Voice>, voicesLoaded: seq<Voice>) returns (outcome: Spoken)
      modifies this
      ensures old(isSpeaking) ==> outcome == Stopped && !isSpeaking && utterance == None
      ensures !old(isSpeaking) && BackendAudio(speech) && played ==> outcome == Backend && !isSpeaking && utterance == None
      ensures outcome.Browser? <==>
        !old(isSpeaking) && !(BackendAudio(speech) && played) && supported &&
        (voicesNow != [] || voicesLoaded != []) && SpokenText(text) != []
      ensures outcome.Browser? ==>
        isSpeaking && utterance == Some(outcome.u) &&
        outcome.u == BrowserUtterance(language, text, if voicesNow != [] then voicesNow else voicesLoaded)
      ensures outcome == Unsupported ==> !isSpeaking && utterance == old(utterance)
      ensures outcome == WaitingForVoices <==>
        !old(isSpeaking) && !(BackendAudio(speech) && played) && supported && voicesNow == [] && voicesLoaded == []
      ensures outcome == NothingToSay <==>
        !old(isSpeaking) && !(BackendAudio(speech) && played) && supported &&
        (voicesNow != [] || voicesLoaded != []) && SpokenText(text) == []
      ensures outcome in {WaitingForVoices, NothingToSay} ==> isSpeaking && utterance == old(utterance)
    {
      if isSpeaking {
        isSpeaking := false;
        utterance := None;
        return Stopped;
      }
      isSpeaking := true;
      if BackendAudio(speech) && played {
        isSpeaking := false;
        utterance := None;
        return Backend;
      }
      if !supported {
        isSpeaking := false;
        return Unsupported;
      }
      var voices := if voicesNow != [] then voicesNow else voicesLoaded;
      if voices == [] {
        return WaitingForVoices;
      }
      var u := BrowserUtterance(language, text, voices);
      if u.text == [] {
        return NothingToSay;
      }
      utterance := Some(u);
      outcome := Browser(u);
    }

    /** `onstart` of either utterance. */
    method Started()
      modifies this
      ensures isSpeaking && utterance == old(utterance)
    {
      isSpeaking := true;
    }

    /** `onend`, and the English fallback's `onerror`. */
    method Ended()
      modifies this
      ensures !isSpeaking && utterance == None
    {
      isSpeaking := false;
      utterance := None;
    }

    /**
     * `onerror` of the main utterance: speaking stops, and only a
     * `synthesis-failed` error retries with an English voice.
     */
    method Failed(error: string, text: string, voices: seq<Voice>) returns (retry: Option<Utterance>)
      modifies this
      ensures !isSpeaking
      ensures error != "synthesis-failed" ==> retry.None? && utterance == None
      ensures error == "synthesis-failed" ==> retry == EnglishUtterance(text, voices) && utterance == retry
    {
      isSpeaking := false;
      utterance := None;
      retry := None;
      if error == "synthesis-failed" {
        retry := EnglishUtterance(text, voices);
        if retry.Some? {
          utterance := retry;
        }
      }
    }
  }
}
