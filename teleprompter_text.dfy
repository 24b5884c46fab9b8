/** The stored script of TeleprompterText.swift: title, content, timestamps,
  * and the character count and reading estimate derived from the content.
  * `Date()` is passed in as `now`. */
module Script {
  /** The reading rate of the estimate, in characters per minute. */
  const CharsPerMinute: real := 200.0

  /** `Double(count) / 200.0 * 60.0`, with no floor. */
  function ReadingSeconds(count: nat): real {
    count as real / CharsPerMinute * 60.0
  }

  /** The estimate is zero exactly for empty content and each character adds
    * 0.3 s, so it is 0.3 s per character. */
  lemma ReadingSecondsShape(count: nat)
    ensures ReadingSeconds(count) == 0.0 <==> count == 0
    ensures ReadingSeconds(count + 1) == ReadingSeconds(count) + 0.3
    ensures ReadingSeconds(count) == count as real * 0.3
  {
  }

  datatype ScriptState = ScriptState(
    title: string,
    content: string,
    createdAt: real,
    lastModified: real,
    wordCount: nat,
    estimatedDuration: real)

  class TeleprompterText {
    var title: string
    var content: string
    var createdAt: real
    var lastModified: real
    var wordCount: nat
    var estimatedDuration: real

    function State(): ScriptState
      reads this
    {
      ScriptState(title, content, createdAt, lastModified, wordCount, estimatedDuration)
    }

    /** The derived fields agree with the content. */
    ghost predicate Valid()
      reads this
    {
      wordCount == |content| && estimatedDuration == ReadingSeconds(|content|)
    }

    constructor (title: string, content: string, now: real)
      ensures Valid()
      ensures State() == ScriptState(title, content, now, now, |content|, ReadingSeconds(|content|))
    {
      this.title := title;
      this.content := content;
      createdAt := now;
      lastModified := now;
      wordCount := |content|;
      estimatedDuration := |content| as real / CharsPerMinute * 60.0;
    }

    /** Replaces the content and re-derives count and estimate; the title and
      * the creation time stay. */
    method UpdateContent(newContent: string, now: real)
      modifies this
      ensures Valid()
      ensures State() == old(State()).(content := newContent, lastModified := now,
                                       wordCount := |newContent|,
                                       estimatedDuration := ReadingSeconds(|newContent|))
    {
      content := newContent;
      lastModified := now;
      wordCount := |newContent|;
      estimatedDuration := |newContent| as real / CharsPerMinute * 60.0;
    }

    /** Replaces the title; content, count, estimate and creation time stay. */
    method UpdateTitle(newTitle: string, now: real)
      requires Valid()
      modifies this
      ensures Valid()
      ensures State() == old(State()).(title := newTitle, lastModified := now)
    {
      title := newTitle;
      lastModified := now;
    }
  }
}
