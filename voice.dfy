/** The espeak options `Speaker.say` sets before synthesising speech. */
module Voice {

  /** A CJK unified ideograph, U+4E00..U+9FFF: the character class of `say`'s regular expression. */
  predicate IsHan(c: char) {
    '\U{4E00}' <= c <= '\U{9FFF}'
  }

  /**
   * Whether the regular-expression search for a run of ideographs succeeds,
   * scanning the text from its start: exactly when some character of the
   * text is an ideograph.
   */
  function ContainsHan(txt: string): (found: bool)
    ensures found <==> exists i :: 0 <= i < |txt| && IsHan(txt[i])
  {
    if txt == [] then false
    else if IsHan(txt[0]) then true
    else
      var rest := ContainsHan(txt[1..]);
      assert forall j :: 0 < j < |txt| ==> txt[j] == txt[1..][j - 1];
      rest
  }

  /** The voice `say` picks before the caller's options apply: Chinese for text with an ideograph, English otherwise. */
  function DefaultVoice(txt: string): (v: string)
    ensures v == "zh" || v == "en"
    ensures v == "zh" <==> ContainsHan(txt)
  {
    if ContainsHan(txt) then "zh" else "en"
  }

  /** A value of an espeak attribute (`voice` is text; `volume`, `pitch`, `speed` and `word_gap` are numbers). */
  datatype Setting = Text(text: string) | Number(number: int)

  /**
   * The attributes `say` sets on the synthesiser: `{'voice': default}`
   * updated with the caller's `options`, so every option the caller passes
   * wins over the default voice.
   */
  function EspeakSettings(txt: string, options: map<string, Setting>): (op: map<string, Setting>)
    ensures op.Keys == options.Keys + {"voice"}
    ensures forall k :: k in options ==> op[k] == options[k]
    ensures "voice" !in options ==> op["voice"] == Text(DefaultVoice(txt))
  {
    map["voice" := Text(DefaultVoice(txt))] + options
  }

  /** The voice actually used: the caller's if given, else `zh` exactly when the text has an ideograph. */
  lemma VoiceSelection(txt: string, options: map<string, Setting>)
    ensures "voice" in options ==> EspeakSettings(txt, options)["voice"] == options["voice"]
    ensures "voice" !in options ==>
              (EspeakSettings(txt, options)["voice"] == Text("zh") <==> exists i :: 0 <= i < |txt| && IsHan(txt[i]))
    ensures "voice" !in options ==>
              (EspeakSettings(txt, options)["voice"] == Text("en") <==> forall i :: 0 <= i < |txt| ==> !IsHan(txt[i]))
  {
  }
}
