/** Building the outgoing message list: the system prompt for a fresh thread,
    the user message with attached images, the list `submit` composes and the
    list `retryFromIndex` sends. */
module Compose {
  import opened ChatTypes

  /** `messagesWithSystemPrompt`: only the first configured prompt is looked
      at; a non-default one replaces an empty history by a single system
      message carrying its text. Any other history passes through unchanged. */
  function MessagesWithSystemPrompt(prompts: seq<SystemPrompt>, ms: seq<ChatMessage>): (r: seq<ChatMessage>)
    ensures r != ms <==> |prompts| > 0 && prompts[0].key != "default" && ms == []
    ensures r != ms ==> r == [SystemMessage(prompts[0].text)]
  {
    if |prompts| == 0 then ms
    else if prompts[0].key == "default" then ms
    else if |ms| == 0 then [SystemMessage(prompts[0].text)]
    else ms
  }

  /** Applying the system prompt twice is the same as applying it once. */
  lemma SystemPromptIdempotent(prompts: seq<SystemPrompt>, ms: seq<ChatMessage>)
    ensures MessagesWithSystemPrompt(prompts, MessagesWithSystemPrompt(prompts, ms))
         == MessagesWithSystemPrompt(prompts, ms)
  {
  }

  /** Reference definition: one `image_url` part for each image whose
      content is a string, in the order the images are attached. */
  function ImageUrlParts(images: seq<ImageFile>): (r: seq<ContentPart>)
    ensures |r| <= |images|
  {
    if images == [] then []
    else
      match images[0].content
      case StringContent(d) => [ImageUrl(d)] + ImageUrlParts(images[1..])
      case NonString => ImageUrlParts(images[1..])
  }

  /** Exactly the string-content images contribute, each as an `image_url`
      part of its own data; there are no parts when there is no such image. */
  lemma {:induction false} ImageUrlPartsMembers(images: seq<ImageFile>)
    ensures ImageUrlParts(images) == [] <==> forall i :: 0 <= i < |images| ==> images[i].content.NonString?
    ensures forall p :: p in ImageUrlParts(images) ==>
              p.ImageUrl? && exists i :: 0 <= i < |images| && images[i].content == StringContent(p.url)
    ensures forall i :: 0 <= i < |images| && images[i].content.StringContent? ==>
              ImageUrl(images[i].content.data) in ImageUrlParts(images)
  {
    if images != [] {
      var tail := images[1..];
      ImageUrlPartsMembers(tail);
      assert forall i :: 1 <= i < |images| ==> images[i] == tail[i - 1];
      forall p | p in ImageUrlParts(images)
        ensures p.ImageUrl? && exists i :: 0 <= i < |images| && images[i].content == StringContent(p.url)
      {
        if p !in ImageUrlParts(tail) {
          assert images[0].content == StringContent(p.url);
        } else {
          var j :| 0 <= j < |tail| && tail[j].content == StringContent(p.url);
          assert images[j + 1].content == StringContent(p.url);
        }
      }
    }
  }

  /** Filtering images keeps their order: it distributes over concatenation. */
  lemma {:induction false} ImageUrlPartsAppend(a: seq<ImageFile>, b: seq<ImageFile>)
    ensures ImageUrlParts(a + b) == ImageUrlParts(a) + ImageUrlParts(b)
  {
    if a == [] {
      assert a + b == b;
    } else {
      assert (a + b)[1..] == a[1..] + b;
      ImageUrlPartsAppend(a[1..], b);
    }
  }

  /** The `attachedImages.reduce(...)` of the source, a left fold: an image
      whose content is a string appends one `image_url` part to the
      accumulator, any other image leaves it as it is. */
  function CollectImageParts(acc: seq<ContentPart>, images: seq<ImageFile>): (r: seq<ContentPart>)
    ensures |acc| <= |r| <= |acc| + |images|
    ensures r[..|acc|] == acc
    decreases |images|
  {
    if images == [] then acc
    else
      match images[0].content
      case StringContent(d) => CollectImageParts(acc + [ImageUrl(d)], images[1..])
      case NonString => CollectImageParts(acc, images[1..])
  }

  /** The fold computes the reference definition: after the accumulator come
      the string-content images, in their original order. */
  lemma {:induction false} CollectImagePartsOrdered(acc: seq<ContentPart>, images: seq<ImageFile>)
    ensures CollectImageParts(acc, images) == acc + ImageUrlParts(images)
    decreases |images|
  {
    if images == [] {
      assert acc + [] == acc;
    } else {
      var tail := images[1..];
      match images[0].content
      case StringContent(d) =>
        CollectImagePartsOrdered(acc + [ImageUrl(d)], tail);
        assert (acc + [ImageUrl(d)]) + ImageUrlParts(tail) == acc + ([ImageUrl(d)] + ImageUrlParts(tail));
      case NonString =>
        CollectImagePartsOrdered(acc, tail);
    }
  }

  /** `maybeAddImagesToQuestion`: the user message for a question. Without an
      image whose content is a string it holds the plain question; otherwise
      the string-content images in order, then the question as a trailing
      text part. Its checkpoint list is always empty. */
  function MaybeAddImagesToQuestion(images: seq<ImageFile>, question: string): (r: ChatMessage)
    ensures r.UserMessage? && r.checkpoints == []
    ensures ImageUrlParts(images) == [] ==> r.userContent == Text(question)
    ensures ImageUrlParts(images) != [] ==>
              r.userContent == Parts(ImageUrlParts(images) + [TextPart(question)])
  {
    if |images| == 0 then UserMessage(Text(question), [])
    else
      var parts := CollectImageParts([], images);
      CollectImagePartsOrdered([], images);
      assert [] + ImageUrlParts(images) == ImageUrlParts(images);
      if |parts| == 0 then UserMessage(Text(question), [])
      else UserMessage(Parts(parts + [TextPart(question)]), [])
  }

  /** Example: two attached images and the question "fix this". */
  lemma TwoImagesExample(a: string, b: string)
    ensures MaybeAddImagesToQuestion([ImageFile("a.png", StringContent(a)), ImageFile("b.png", StringContent(b))], "fix this")
         == UserMessage(Parts([ImageUrl(a), ImageUrl(b), TextPart("fix this")]), [])
  {
    var images := [ImageFile("a.png", StringContent(a)), ImageFile("b.png", StringContent(b))];
    assert images[1..] == [ImageFile("b.png", StringContent(b))];
    assert ImageUrlParts(images) == [ImageUrl(a), ImageUrl(b)];
  }

  /** `messages.slice(0, -1)`: everything but the last message; empty stays empty. */
  function DropLast(ms: seq<ChatMessage>): (r: seq<ChatMessage>)
    ensures ms == [] ==> r == []
    ensures ms != [] ==> r + [ms[|ms| - 1]] == ms
  {
    if ms == [] then [] else ms[..|ms| - 1]
  }

  /** The list `submit` sends. `prompted` is the history with the system
      prompt applied. A non-empty question appends its user message to that
      history, after dropping the last message when asked to; otherwise an
      explicit message list replaces everything, the drop included. */
  function ComposeSubmit(prompted: seq<ChatMessage>, images: seq<ImageFile>, question: string,
                         maybeMessages: Option<seq<ChatMessage>>, dropLast: bool): (r: seq<ChatMessage>)
    ensures question != "" ==>
              |r| > 0 && r[|r| - 1] == MaybeAddImagesToQuestion(images, question) &&
              r[..|r| - 1] == (if dropLast then DropLast(prompted) else prompted)
    ensures question == "" && maybeMessages.Some? ==> r == maybeMessages.value
    ensures question == "" && maybeMessages.None? ==>
              r == (if dropLast then DropLast(prompted) else prompted)
  {
    var kept := if dropLast then DropLast(prompted) else prompted;
    if question != "" then kept + [MaybeAddImagesToQuestion(images, question)]
    else if maybeMessages.Some? then maybeMessages.value
    else kept
  }

  /** The mode `submit` hands to `chatModeToLspMode`: the explicit mode, else
      the thread's mode, else "CONFIGURE" for a thread bound to an
      integration, else none. */
  function SubmitModeArgument(maybeMode: Option<LspChatMode>, threadMode: Option<LspChatMode>,
                              integration: bool): (r: Option<LspChatMode>)
    ensures maybeMode.Some? ==> r == maybeMode
    ensures maybeMode.None? && threadMode.Some? ==> r == threadMode
    ensures maybeMode.None? && threadMode.None? ==> (r.Some? <==> integration)
    ensures maybeMode.None? && threadMode.None? && integration ==> r == Some(CONFIGURE)
  {
    Coalesce(maybeMode, Coalesce(threadMode, if integration then Some(CONFIGURE) else None))
  }

  /** The list `retryFromIndex` sends: the first `index` messages, then one
      new user message with the given content and no checkpoints. */
  function RetryFromIndexMessages(ms: seq<ChatMessage>, index: nat, question: UserContent): (r: seq<ChatMessage>)
    requires index <= |ms|
    ensures |r| == index + 1
    ensures r[..index] == ms[..index]
    ensures r[index] == UserMessage(question, [])
  {
    ms[..index] + [UserMessage(question, [])]
  }

  /** Example: ten messages and index 3. */
  lemma RetryFromIndexExample(ms: seq<ChatMessage>, question: UserContent)
    requires |ms| == 10
    ensures RetryFromIndexMessages(ms, 3, question) == [ms[0], ms[1], ms[2], UserMessage(question, [])]
  {
  }
}
