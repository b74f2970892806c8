/** The prompt `generateImageFromPrompt` sends to the image model: the active
    template literal, with the transcript substituted between a fixed opening
    and a fixed closing text. */
module Prompting {

  import opened Wrappers

  /** The template up to the `${transcript}` placeholder. */
  const PromptPrefix: string := "Envision an object that embodies the essence of this quote : '"

  /** The template after the placeholder, character for character: the literal
      keeps a trailing blank after "This", the next line's four-blank indent, and
      three characters that are an em dash mis-decoded when the file was saved. */
  const PromptSuffix: string :=
    "'. This \n"
    + "    object should be the sole\n"
    + "focus against a stark black background, devoid of any surrounding context or environmental\n"
    + "elements. The chosen object should be rendered in a photorealistic style, yet carry an aura of\n"
    + "otherworldliness. It should appear as though it is gently emerging from a delicate mist of swirling\n"
    + "smoke and faint dust, enhancing its mysterious allure. Craft this object from an intricate blend of\n"
    + "natural and artificial elements\U{00E2}\U{20AC}\U{201D}think of a fusion of entangled branches, lush vegetation, and\n"
    + "complex mechanical and electrical components, all woven together in a steampunk-inspired design.\n"
    + "This creation should float centrally within the frame, not touching any edges, and be bathed in a\n"
    + "palette of under-saturated colors with a subtle blueish tint. Should the initial object choice be\n"
    + "restricted by content policies, please adapt to an alternative that aligns with the given guidelines."

  /** The prompt for a transcript: the transcript appears verbatim between the
      two fixed parts, and the length is the sum of the three. */
  function Prompt(transcript: string): (prompt: string)
    ensures |prompt| == |PromptPrefix| + |transcript| + |PromptSuffix|
    ensures prompt[..|PromptPrefix|] == PromptPrefix
    ensures prompt[|PromptPrefix|..|PromptPrefix| + |transcript|] == transcript
    ensures prompt[|PromptPrefix| + |transcript|..] == PromptSuffix
  {
    PromptPrefix + transcript + PromptSuffix
  }

  /** Recovers the transcript from a prompt, if the text has the template's shape. */
  function TranscriptOf(prompt: string): Option<string>
  {
    var n, m := |PromptPrefix|, |PromptSuffix|;
    if |prompt| >= n + m && prompt[..n] == PromptPrefix && prompt[|prompt| - m..] == PromptSuffix
    then Some(prompt[n..|prompt| - m])
    else None
  }

  /** Any text long enough to hold both fixed parts is their join around its middle. */
  lemma SplitAround(text: string, n: nat, m: nat)
    requires n + m <= |text|
    ensures text == text[..n] + text[n..|text| - m] + text[|text| - m..]
  {
  }

  /** The transcript can always be read back from the prompt built from it. */
  lemma PromptRoundTrip(transcript: string)
    ensures TranscriptOf(Prompt(transcript)) == Some(transcript)
  {
  }

  /** Whatever reads back as a transcript is the prompt built from it. */
  lemma TranscriptOfSound(prompt: string, transcript: string)
    requires TranscriptOf(prompt) == Some(transcript)
    ensures Prompt(transcript) == prompt
  {
    SplitAround(prompt, |PromptPrefix|, |PromptSuffix|);
  }

  /** Different transcripts give different prompts. */
  lemma PromptInjective(t1: string, t2: string)
    ensures Prompt(t1) == Prompt(t2) <==> t1 == t2
  {
    PromptRoundTrip(t1);
    PromptRoundTrip(t2);
  }

}
