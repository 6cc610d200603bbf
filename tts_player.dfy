/**
 * The browser's text-to-speech client: a request for synthesised audio that
 * resolves to `null` instead of failing, and a player that keeps at most one
 * audio element current. The audio element, object URLs and `atob` are
 * browser facilities: an audio element is modelled by its paused flag, its
 * position and its source, an object URL by a number, and the decoded base64
 * text is an input.
 */
module TtsPlayer {
  import opened Wrappers
  import opened JsValues
  import opened Http

  // ---- synthesizeSpeech ----

  const SpeechPath: string := "/hooks/text-to-speech"

  /** The backend audio `synthesizeSpeech` resolves to. */
  datatype Speech = Speech(audioBase64: JsValue, format: JsValue, provider: JsValue)

  function SpeechRequest(text: JsValue, language: JsValue): Effect {
    Call(SpeechPath, Obj([Field("text", text), Field("language", DefaultTo(language, Str("en-US")))]))
  }

  /**
   * `synthesizeSpeech(text, language = 'en-US')`: the reply's audio when it
   * reports success and carries audio, otherwise `null`; a failed request is
   * `null` as well.
   */
  function SynthesizeSpeech(reply: CallOutcome): (r: Option<Speech>)
    ensures r.Some? <==> reply.Answer? && Truthy(Get(reply.data, "success")) && Truthy(Get(Get(reply.data, "data"), "audio"))
    ensures r.Some? ==> r.value.audioBase64 == Get(Get(reply.data, "data"), "audio") && Truthy(r.value.format)
    ensures r.Some? && !Truthy(Get(Get(reply.data, "data"), "format")) ==> r.value.format == Str("mp3")
  {
    match reply
    case Fault(_) => None
    case Answer(data) =>
      if Truthy(Get(data, "success")) && Truthy(Get(Get(data, "data"), "audio")) then
        var audio := Get(data, "data");
        Some(Speech(Get(audio, "audio"), OrStr(Get(audio, "format"), "mp3"), Get(audio, "provider")))
      else None
  }

  // ---- the byte copy of playAudio ----

  /** An element of a `Uint8Array`. */
  newtype Byte = x: int | 0 <= x < 256

  /** What a `Uint8Array` stores for an assigned number: its value modulo 256. */
  function ToUint8(n: int): Byte {
    (n % 256) as Byte
  }

  /**
   * The `for` loop that fills a fresh `Uint8Array` with `charCodeAt(i)` for
   * every position of the decoded text.
   */
  method CopyBytes(data: string) returns (bytes: array<Byte>)
    ensures fresh(bytes)
    ensures bytes.Length == |data|
    ensures forall i :: 0 <= i < |data| ==> bytes[i] == ToUint8(data[i] as int)
    ensures forall i :: 0 <= i < |data| && data[i] as int < 256 ==> bytes[i] as int == data[i] as int
  {
    bytes := new Byte[|data|];
    var i := 0;
    while i < |data|
      invariant 0 <= i <= |data|
      invariant forall k :: 0 <= k < i ==> bytes[k] == ToUint8(data[k] as int)
    {
      bytes[i] := ToUint8(data[i] as int);
      i := i + 1;
    }
  }

  // ---- the single-audio player ----

  /** An `HTMLAudioElement` as far as the player touches it. */
  class Audio {
    /** The object URL it was created from. */
    const url: nat
    var paused: bool
    var position: int
    var source: Option<nat>

    /** `new Audio(audioUrl)`: not yet playing. */
    constructor(url: nat)
      ensures this.url == url && paused && position == 0 && source == Some(url)
    {
      this.url := url;
      paused := true;
      position := 0;
      source := Some(url);
    }
  }

  /**
   * The module-level `currentAudio` and `currentAudioUrl`, the object URLs
   * revoked so far, and the next URL the browser will hand out.
   */
  class Player {
    var current: Option<Audio>
    var currentUrl: Option<nat>
    var revoked: set<nat>
    var nextUrl: nat

    /** The two globals are set and cleared together, and the URL is the current audio's. */
    predicate Valid()
      reads this
    {
      (current.Some? <==> currentUrl.Some?) &&
      (current.Some? ==> currentUrl == Some(current.value.url))
    }

    function Current(): set<object>
      reads this
    {
      if current.Some? then {current.value} else {}
    }

    constructor()
      ensures Valid() && current == None && revoked == {}
    {
      current := None;
      currentUrl := None;
      revoked := {};
      nextUrl := 0;
    }

    /**
     * `stopAudio`. `pauseFails`, `resetFails`, `clearFails` and `revokeFails`
     * say which of the guarded browser calls throw; the globals are cleared
     * in `finally` whatever happens.
     */
    method Stop(pauseFails: bool, resetFails: bool, clearFails: bool, revokeFails: bool)
      requires Valid()
      modifies this, Current()
      ensures Valid() && current == None && currentUrl == None && nextUrl == old(nextUrl)
      ensures old(current).Some? ==> var a := old(current).value;
        a.paused == (old(a.paused) || !pauseFails) &&
        a.position == (if resetFails then old(a.position) else 0) &&
        a.source == (if clearFails then old(a.source) else None)
      ensures revoked == if old(currentUrl).Some? && !revokeFails then old(revoked) + {old(currentUrl).value} else old(revoked)
    {
      if current.Some? {
        var a := current.value;
        if !pauseFails {
          a.paused := true;
        }
        if !resetFails {
          a.position := 0;
        }
        if !clearFails {
          a.source := None;
        }
      }
      if currentUrl.Some? && !revokeFails {
        revoked := revoked + {currentUrl.value};
      }
      current := None;
      currentUrl := None;
    }

    /** `pauseAudio`: only a playing current audio is paused. */
    method Pause()
      requires Valid()
      modifies Current()
      ensures Valid() && current == old(current)
      ensures current.Some? ==> current.value.paused && current.value.position == old(current.value.position)
      ensures current.Some? ==> current.value.source == old(current.value.source)
    {
      if current.Some? && !current.value.paused {
        current.value.paused := true;
      }
    }

    /** `resumeAudio`: only a paused current audio is played; `playOk` is the outcome of `play()`. */
    method Resume(playOk: bool)
      requires Valid()
      modifies Current()
      ensures Valid() && current == old(current)
      ensures current.Some? ==> current.value.paused == (old(current.value.paused) && !playOk)
      ensures current.Some? ==> current.value.source == old(current.value.source) && current.value.position == old(current.value.position)
    {
      if current.Some? && current.value.paused && playOk {
        current.value.paused := false;
      }
    }

    /**
     * `playAudio(audioBase64, format)`. The current audio is stopped first;
     * `decoded` is what `atob` returned, `None` when it threw, in which case
     * the promise is rejected and no audio is installed.
     */
    method Play(decoded: Option<string>) returns (audio: Option<Audio>, bytes: Option<array<Byte>>)
      requires Valid()
      modifies this, Current()
      ensures Valid() && revoked == (if old(currentUrl).Some? then old(revoked) + {old(currentUrl).value} else old(revoked))
      ensures old(current).Some? ==> old(current).value.paused && old(current).value.source == None
      ensures decoded.None? ==> audio.None? && current == None
      ensures decoded.Some? ==>
        audio.Some? && fresh(audio.value) && current == audio &&
        currentUrl == Some(old(nextUrl)) && audio.value.paused && audio.value.source == Some(old(nextUrl))
      ensures decoded.Some? ==>
        bytes.Some? && fresh(bytes.value) && bytes.value.Length == |decoded.value| &&
        forall i :: 0 <= i < |decoded.value| ==> bytes.value[i] == ToUint8(decoded.value[i] as int)
    {
      Stop(false, false, false, false);
      audio, bytes := None, None;
      if decoded.Some? {
        var data := CopyBytes(decoded.value);
        var url := nextUrl;
        nextUrl := nextUrl + 1;
        var a := new Audio(url);
        current := Some(a);
        currentUrl := Some(url);
        audio, bytes := Some(a), Some(data);
      }
    }

    /** `oncanplaythrough`: the audio starts, or a rejected `play()` releases it. */
    method CanPlayThrough(audio: Audio, playOk: bool)
      requires Valid()
      modifies this, audio
      ensures Valid()
      ensures playOk ==> !audio.paused && current == old(current) && revoked == old(revoked)
      ensures !playOk ==>
        audio.paused == old(audio.paused) &&
        current == (if old(current) == Some(audio) then None else old(current)) && revoked == old(revoked) + {audio.url}
    {
      if playOk {
        audio.paused := false;
      } else {
        Release(audio);
      }
    }

    /**
     * What `onended`, `onerror` and a rejected `play()` share: the audio's URL
     * is revoked, and the globals are cleared only if this audio is still the
     * current one, so a newer playback is untouched.
     */
    method Release(audio: Audio)
      requires Valid()
      modifies this
      ensures Valid() && revoked == old(revoked) + {audio.url} && nextUrl == old(nextUrl)
      ensures old(current) == Some(audio) ==> current == None && currentUrl == None
      ensures old(current) != Some(audio) ==> current == old(current) && currentUrl == old(currentUrl)
    {
      revoked := revoked + {audio.url};
      if current == Some(audio) {
        current := None;
        currentUrl := None;
      }
    }
  }

  /**
   * Two playbacks in a row: when the first one's element ends after the
   * second started, the second stays current.
   */
  method StalePlaybackEnds(player: Player, first: string, second: string) returns (earlier: Audio, later: Audio)
    requires player.Valid()
    modifies player, player.Current()
    ensures player.Valid() && player.current == Some(later) && earlier != later
    ensures earlier.url in player.revoked && later.source.Some?
  {
    var a, _ := player.Play(Some(first));
    var b, _ := player.Play(Some(second));
    player.Release(a.value);
    earlier, later := a.value, b.value;
  }
}
