/** The chunking form of components/chunking-config.tsx: two number boxes
    whose text is shown from, and parsed back into, a chunking configuration. */
module ChunkingForm {
  import opened Common
  import opened Strings

  /** What a number box shows for a field: its decimal text when the field
      is truthy, else nothing. */
  function Displayed(n: Option<int>): (text: string)
    ensures TruthyInt(n) ==> text == IntToString(n.value)
    ensures TruthyInt(n) ==> ParseInt(text) == n && text != ""
    ensures !TruthyInt(n) <==> text == ""
  {
    if TruthyInt(n) then
      ParseIntOfIntToString(n.value);
      IntToString(n.value)
    else ""
  }

  /** The field a box's text gives: nothing for an empty box, else
      `parseInt(text, 10)` (a text with no digits gives NaN, here `None`). */
  function Parsed(text: string): (n: Option<int>)
    ensures text == "" ==> n.None?
    ensures AllDigits(text) && text != "" ==> n == Some(DigitsValue(text))
  {
    if text == "" then None else ParseInt(text)
  }

  /** Typing into the "max tokens per chunk" box. */
  function EditMaxTokens(value: ChunkingConfig, text: string): (r: ChunkingConfig)
    ensures r.maxOverlapTokens == value.maxOverlapTokens
    ensures r.maxTokensPerChunk == Parsed(text)
  {
    value.(maxTokensPerChunk := Parsed(text))
  }

  /** Typing into the "max overlap tokens" box. */
  function EditMaxOverlap(value: ChunkingConfig, text: string): (r: ChunkingConfig)
    ensures r.maxTokensPerChunk == value.maxTokensPerChunk
    ensures r.maxOverlapTokens == Parsed(text)
  {
    value.(maxOverlapTokens := Parsed(text))
  }

  /** Reading back what a box shows keeps every truthy field and turns a 0
      into an absent one. */
  lemma {:induction false} DisplayedReadsBack(n: Option<int>)
    ensures Parsed(Displayed(n)) == if TruthyInt(n) then n else None
  {
    if TruthyInt(n) {
      assert Displayed(n) != "";
    }
  }

  /** Typing the decimal text of a non-zero number shows that text again. */
  lemma {:induction false} TypedNumberIsShown(value: ChunkingConfig, n: int)
    requires n != 0
    ensures Displayed(EditMaxTokens(value, IntToString(n)).maxTokensPerChunk) == IntToString(n)
    ensures Displayed(EditMaxOverlap(value, IntToString(n)).maxOverlapTokens) == IntToString(n)
  {
    ParseIntOfIntToString(n);
  }
}
