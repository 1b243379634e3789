/**
 * The content-generation page (src/pages/content-generation/index.jsx): the
 * generation queue it keeps, the guard on starting a generation, cancel and
 * retry of queue items, regenerate and save, and the interval that reveals the
 * generated text one word at a time.
 *
 * The page is a class whose fields are the component's state. The timer that
 * starts streaming one second after a request and the 100 ms interval are
 * methods the caller invokes in their place (`StartStreaming`, `Tick`); the
 * clock value `Date.now()` is a parameter, and so is the outcome of the random
 * connection check.
 */
module ContentGeneration {
  import opened Wrappers
  import Text
  import R = Rounding

  /** One entry of the generation queue; `status` is kept as the string the page stores. */
  datatype QueueItem = QueueItem(
    id: string,
    contentType: string,
    model: string,
    prompt: string,
    status: string,
    progress: Option<nat>,
    estimatedTime: Option<nat>,
    completedAt: Option<string>,
    error: Option<string>)

  /** The generate action is enabled: the trimmed prompt is not empty and the daemon is connected. */
  predicate CanGenerate(prompt: string, connectionStatus: string) {
    !Text.IsBlank(prompt) && connectionStatus == "connected"
  }

  /** `mockContent[type] || mockContent.blog`: an absent or empty entry falls back to the blog text. */
  function ContentFor(mockContent: map<string, string>, contentType: string): string
    requires "blog" in mockContent
  {
    if contentType in mockContent && mockContent[contentType] != "" then mockContent[contentType]
    else mockContent["blog"]
  }

  /** The item `handleGenerate` prepends: id from the clock, `generating` at 0 %, one tenth of the word count as estimate. */
  function NewItem(now: nat, contentType: string, model: string, prompt: string, content: string): QueueItem {
    QueueItem(Text.NatToString(now), contentType, model, prompt, "generating", Some(0),
              Some(|Text.Split(content, ' ')| / 10), None, None)
  }

  /** `prev.map(...)` of `handleCancelGeneration`: the items with `id` become `cancelled`, nothing else moves or changes. */
  function CancelItems(queue: seq<QueueItem>, id: string): (r: seq<QueueItem>)
    ensures |r| == |queue|
    ensures forall k | 0 <= k < |queue| ::
      r[k] == if queue[k].id == id then queue[k].(status := "cancelled") else queue[k]
    decreases |queue|
  {
    if |queue| == 0 then []
    else [if queue[0].id == id then queue[0].(status := "cancelled") else queue[0]] + CancelItems(queue[1..], id)
  }

  /** `prev.map(...)` of `handleRetryGeneration`: the items with `id` become `queued` at progress 0, nothing else changes. */
  function RetryItems(queue: seq<QueueItem>, id: string): (r: seq<QueueItem>)
    ensures |r| == |queue|
    ensures forall k | 0 <= k < |queue| ::
      r[k] == if queue[k].id == id then queue[k].(status := "queued", progress := Some(0)) else queue[k]
    decreases |queue|
  {
    if |queue| == 0 then []
    else [if queue[0].id == id then queue[0].(status := "queued", progress := Some(0)) else queue[0]] + RetryItems(queue[1..], id)
  }

  /** Cancelling twice is cancelling once. */
  lemma CancelIdempotent(queue: seq<QueueItem>, id: string)
    ensures CancelItems(CancelItems(queue, id), id) == CancelItems(queue, id)
  {
    var once := CancelItems(queue, id);
    assert forall k | 0 <= k < |queue| :: once[k].id == queue[k].id;
  }

  /** A retry after a cancel gives what the retry alone gives: retry overwrites the cancelled status. */
  lemma RetryAfterCancel(queue: seq<QueueItem>, id: string)
    ensures RetryItems(CancelItems(queue, id), id) == RetryItems(queue, id)
  {
    var cancelled := CancelItems(queue, id);
    assert forall k | 0 <= k < |queue| :: cancelled[k].id == queue[k].id;
  }

  /** Items with another id are never touched by cancel or retry. */
  lemma OtherItemsUntouched(queue: seq<QueueItem>, id: string, k: nat)
    requires k < |queue| && queue[k].id != id
    ensures CancelItems(queue, id)[k] == queue[k]
    ensures RetryItems(queue, id)[k] == queue[k]
  {
  }

  // ------------------------------------------------------------- streaming

  /**
   * The progress step `i` of `n` words shows, `Math.round((i / n) * 100)`.
   * It starts at 0, never goes down, and stays at most 100 before the final
   * step; it reaches 100 early exactly when at most half a percent is left,
   * which needs a text of at least 200 words.
   */
  function Progress(i: nat, n: nat): (p: int)
    requires i < n
    ensures 0 <= p <= 100
    ensures p == 100 <==> 200 * (n - i) <= n
    ensures i == 0 ==> p == 0
  {
    R.PercentBounds(i, n);
    R.RoundedPercent(i, n)
  }

  /** Progress never goes down from one step to the next. */
  lemma ProgressMonotone(i: nat, j: nat, n: nat)
    requires i <= j < n
    ensures Progress(i, n) <= Progress(j, n)
  {
    R.PercentMonotone(i, j, n);
  }

  /** `words.slice(0, i + 1).join(' ')`: the text shown after step `i`. */
  function StreamText(words: seq<string>, i: nat): string
    requires i < |words|
  {
    Text.Join(words[..i + 1], ' ')
  }

  /** Each step after the first adds one space and the next word to the shown text. */
  lemma StreamStepAddsWord(words: seq<string>, i: nat)
    requires 0 < i < |words|
    ensures StreamText(words, i) == StreamText(words, i - 1) + " " + words[i]
  {
    Text.JoinSnoc(words[..i], words[i], ' ');
    assert words[..i] + [words[i]] == words[..i + 1];
  }

  /** At the last word the shown text is the whole generated text. */
  lemma LastStepShowsContent(content: string)
    ensures StreamText(Text.Split(content, ' '), |Text.Split(content, ' ')| - 1) == content
  {
    var words := Text.Split(content, ' ');
    Text.JoinSplit(content, ' ');
    assert words[..|words|] == words;
  }

  /** `handleSave`: the streamed text when there is one, else the finished text, else nothing. */
  function ContentToSave(streamingText: string, generatedContent: string): (r: Option<string>)
    ensures r.None? <==> streamingText == "" && generatedContent == ""
    ensures r.Some? ==> r.value != "" && (r.value == streamingText || r.value == generatedContent)
    ensures streamingText != "" ==> r == Some(streamingText)
  {
    if streamingText != "" then Some(streamingText)
    else if generatedContent != "" then Some(generatedContent)
    else None
  }

  // ------------------------------------------------------------------ page

  class ContentGenerationPage {
    /** The canned texts per content type; `blog` is always present. */
    const mockContent: map<string, string>
    var selectedContentType: string
    var selectedModel: string
    var prompt: string
    var generatedContent: string
    var streamingText: string
    var isGenerating: bool
    var generationProgress: int
    var connectionStatus: string
    var generationQueue: seq<QueueItem>
    /** The streaming a pending one-second timeout will start: the text and the `streamingText` its closure saw. */
    var scheduled: Option<(string, string)>
    /** The running interval of `simulateStreaming`: its words, its counter and its closure's `streamingText`. */
    var words: seq<string>
    var currentIndex: nat
    var streamOpen: bool
    var closureStreamingText: string

    ghost predicate Valid()
      reads this
    {
      "blog" in mockContent && currentIndex <= |words| && (streamOpen ==> |words| > 0)
    }

    /** The initial state: blog, `llama2`, empty prompt and output, still connecting. */
    constructor(mocks: map<string, string>, queue: seq<QueueItem>)
      requires "blog" in mocks
      ensures Valid() && mockContent == mocks && generationQueue == queue
      ensures selectedContentType == "blog" && selectedModel == "llama2" && prompt == ""
      ensures generatedContent == "" && streamingText == "" && !isGenerating && generationProgress == 0
      ensures connectionStatus == "connecting" && scheduled == None && !streamOpen
    {
      mockContent := mocks;
      selectedContentType := "blog";
      selectedModel := "llama2";
      prompt := "";
      generatedContent := "";
      streamingText := "";
      isGenerating := false;
      generationProgress := 0;
      connectionStatus := "connecting";
      generationQueue := queue;
      scheduled := None;
      words := [];
      currentIndex := 0;
      streamOpen := false;
      closureStreamingText := "";
    }

    /** The input setters the child components call. */
    method Edit(contentType: string, model: string, text: string)
      modifies this
      ensures selectedContentType == contentType && selectedModel == model && prompt == text
      ensures generatedContent == old(generatedContent) && streamingText == old(streamingText)
      ensures isGenerating == old(isGenerating) && generationProgress == old(generationProgress)
      ensures connectionStatus == old(connectionStatus) && generationQueue == old(generationQueue)
      ensures scheduled == old(scheduled) && words == old(words) && currentIndex == old(currentIndex)
      ensures streamOpen == old(streamOpen) && closureStreamingText == old(closureStreamingText)
    {
      selectedContentType, selectedModel, prompt := contentType, model, text;
    }

    /** The periodic connection check settles on `status` (its random draw is the parameter). */
    method ConnectionChecked(status: string)
      modifies this`connectionStatus
      ensures connectionStatus == status
    {
      connectionStatus := status;
    }

    /** What `handleGenerate` does to the state, as a relation between the old and the new state. */
    twostate predicate GenerateEffect(now: nat)
      requires "blog" in mockContent
      reads this
    {
      && selectedContentType == old(selectedContentType) && selectedModel == old(selectedModel)
      && prompt == old(prompt) && streamingText == old(streamingText)
      && connectionStatus == old(connectionStatus)
      && words == old(words) && currentIndex == old(currentIndex)
      && streamOpen == old(streamOpen) && closureStreamingText == old(closureStreamingText)
      && if CanGenerate(old(prompt), old(connectionStatus)) then
           var content := ContentFor(mockContent, old(selectedContentType));
           && isGenerating && generatedContent == "" && generationProgress == 0
           && generationQueue == [NewItem(now, old(selectedContentType), old(selectedModel), old(prompt), content)]
                                 + old(generationQueue)
           && scheduled == Some((content, old(streamingText)))
         else
           && isGenerating == old(isGenerating) && generatedContent == old(generatedContent)
           && generationProgress == old(generationProgress)
           && generationQueue == old(generationQueue) && scheduled == old(scheduled)
    }

    /**
     * `handleGenerate`: nothing happens unless the prompt is not blank and the
     * daemon is connected; otherwise the output is cleared, one `generating`
     * item is put in front of the queue, and streaming of the canned text is
     * scheduled.
     */
    method Generate(now: nat)
      requires Valid()
      modifies this
      ensures Valid() && GenerateEffect(now)
    {
      if !CanGenerate(prompt, connectionStatus) {
        return;
      }
      isGenerating := true;
      generatedContent := "";
      generationProgress := 0;
      var content := ContentFor(mockContent, selectedContentType);
      generationQueue := [NewItem(now, selectedContentType, selectedModel, prompt, content)] + generationQueue;
      scheduled := Some((content, streamingText));
    }

    /** `handleRegenerate`: generates again only when there is finished or streamed text. */
    method Regenerate(now: nat)
      requires Valid()
      modifies this
      ensures Valid()
      ensures old(generatedContent) == "" && old(streamingText) == "" ==> unchanged(this)
      ensures old(generatedContent) != "" || old(streamingText) != "" ==> GenerateEffect(now)
    {
      if generatedContent != "" || streamingText != "" {
        Generate(now);
      }
    }

    /** The scheduled timeout fires: `simulateStreaming` resets the shown text and starts the interval. */
    method StartStreaming()
      requires Valid() && scheduled.Some?
      modifies this`words, this`currentIndex, this`streamingText, this`generationProgress
      modifies this`closureStreamingText, this`streamOpen, this`scheduled
      ensures Valid()
      ensures words == Text.Split(old(scheduled).value.0, ' ') && currentIndex == 0 && streamOpen
      ensures closureStreamingText == old(scheduled).value.1 && scheduled == None
      ensures streamingText == "" && generationProgress == 0
    {
      var (content, seen) := scheduled.value;
      words := Text.Split(content, ' ');
      currentIndex := 0;
      streamingText := "";
      generationProgress := 0;
      closureStreamingText := seen;
      streamOpen := true;
      scheduled := None;
    }

    /**
     * One run of the interval. While words remain, step `i` shows the first
     * `i + 1` words and progress `round(i·100/n)`. After the last word the
     * interval stops, progress becomes 100, generation ends, and the finished
     * text becomes the `streamingText` the closure captured when the
     * generation was requested, not the text just streamed.
     */
    method Tick()
      requires Valid() && streamOpen
      modifies this`streamingText, this`generationProgress, this`currentIndex
      modifies this`streamOpen, this`generatedContent, this`isGenerating
      ensures Valid()
      ensures old(currentIndex) < |words| ==>
        && streamingText == StreamText(words, old(currentIndex))
        && generationProgress == Progress(old(currentIndex), |words|)
        && currentIndex == old(currentIndex) + 1 && streamOpen
        && generatedContent == old(generatedContent) && isGenerating == old(isGenerating)
      ensures old(currentIndex) == |words| ==>
        && !streamOpen && generatedContent == old(closureStreamingText) && streamingText == ""
        && !isGenerating && generationProgress == 100 && currentIndex == old(currentIndex)
    {
      if currentIndex < |words| {
        streamingText := StreamText(words, currentIndex);
        generationProgress := Progress(currentIndex, |words|);
        currentIndex := currentIndex + 1;
      } else {
        streamOpen := false;
        generatedContent := closureStreamingText;
        streamingText := "";
        isGenerating := false;
        generationProgress := 100;
      }
    }

    /**
     * `handleCancelGeneration`: the items with `id` become `cancelled`; a running
     * generation stops showing text and progress. The interval itself is not
     * cleared and keeps running.
     */
    method Cancel(id: string)
      requires Valid()
      modifies this`generationQueue, this`isGenerating, this`streamingText, this`generationProgress
      ensures Valid()
      ensures generationQueue == CancelItems(old(generationQueue), id)
      ensures old(isGenerating) ==> !isGenerating && streamingText == "" && generationProgress == 0
      ensures !old(isGenerating) ==>
        !isGenerating && streamingText == old(streamingText) && generationProgress == old(generationProgress)
    {
      generationQueue := CancelItems(generationQueue, id);
      if isGenerating {
        isGenerating := false;
        streamingText := "";
        generationProgress := 0;
      }
    }

    /** `handleRetryGeneration`: the items with `id` become `queued` at progress 0; nothing else changes. */
    method Retry(id: string)
      modifies this`generationQueue
      ensures generationQueue == RetryItems(old(generationQueue), id)
    {
      generationQueue := RetryItems(generationQueue, id);
    }

    /** `handleSave`'s choice of text. */
    function SaveContent(): Option<string>
      reads this
    {
      ContentToSave(streamingText, generatedContent)
    }
  }
}
