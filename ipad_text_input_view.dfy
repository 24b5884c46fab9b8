/** The logic of iPadTextInputView.swift: the input buffer that the view
  * loads from the model, extends with quick-insert snippets, clears and
  * confirms; the reading-difficulty bucket; and the same reading-time
  * estimate as the desktop input view (`TextInput.EstimatedDuration`). */
module IPadTextInput {
  import TextInput
  import Teleprompter

  /** The four buckets of `readingDifficulty`, shortest first. */
  const DifficultyLabels: seq<string> := ["简短", "适中", "较长", "很长"]

  /** `readingDifficulty` for an input of `count` characters. */
  function ReadingDifficulty(count: nat): string {
    if count < 100 then "简短"
    else if count < 500 then "适中"
    else if count < 1000 then "较长"
    else "很长"
  }

  /** The position of a label among the buckets. */
  function Rank(bucket: string): (k: nat)
    requires bucket in DifficultyLabels
    ensures k < |DifficultyLabels| && DifficultyLabels[k] == bucket
  {
    if bucket == DifficultyLabels[0] then 0
    else if bucket == DifficultyLabels[1] then 1
    else if bucket == DifficultyLabels[2] then 2
    else 3
  }

  /** Every count falls in exactly the bucket its thresholds 100, 500 and
    * 1000 select, and a longer text never falls in a shorter bucket. */
  lemma ReadingDifficultyMonotone(c1: nat, c2: nat)
    ensures ReadingDifficulty(c1) in DifficultyLabels
    ensures Rank(ReadingDifficulty(c1)) == (if c1 < 100 then 0 else if c1 < 500 then 1 else if c1 < 1000 then 2 else 3)
    ensures c1 <= c2 ==> Rank(ReadingDifficulty(c1)) <= Rank(ReadingDifficulty(c2))
  {
  }

  /** The quick-insert buttons. */
  datatype Snippet = Welcome | Transition | Closing | Pause

  function SnippetText(s: Snippet): (t: string)
    ensures |t| > 0
  {
    match s
    case Welcome => "欢迎大家观看今天的节目！"
    case Transition => "接下来，让我们继续下一个话题。"
    case Closing => "感谢大家的观看，我们下期再见！"
    case Pause => "..."
  }

  /** The state the view keeps: the text being edited. */
  class IPadTextInputView {
    var inputText: string

    constructor ()
      ensures inputText == ""
    {
      inputText := "";
    }

    /** On appearing the view loads the model's current text. */
    method OnAppear(model: Teleprompter.TeleprompterModel)
      modifies this
      ensures inputText == model.text
    {
      inputText := model.text;
    }

    /** A quick-insert button appends its snippet; what was typed stays as a
      * prefix and the text grows. */
    method QuickInsert(s: Snippet)
      modifies this
      ensures inputText == old(inputText) + SnippetText(s)
      ensures inputText[..|old(inputText)|] == old(inputText)
      ensures |inputText| > |old(inputText)|
    {
      inputText := inputText + SnippetText(s);
    }

    /** "清空": empties the input, which disables confirm. */
    method Clear()
      modifies this
      ensures inputText == ""
      ensures !TextInput.ConfirmEnabled(inputText)
    {
      inputText := "";
    }

    /** "确认使用", enabled only for input that is not blank: the model gets
      * the input untrimmed. */
    method Confirm(model: Teleprompter.TeleprompterModel)
      requires TextInput.ConfirmEnabled(inputText)
      requires model.Valid()
      modifies model
      ensures model.Valid()
      ensures model.State() == old(model.State()).(text := inputText, position := 0.0,
                                                   totalTime := Teleprompter.TotalTimeFor(|inputText|))
    {
      model.SetText(inputText);
    }
  }
}
