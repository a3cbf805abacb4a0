/**
 * frontend/src/components/MessageInput.jsx: the `text` and `imagePreview` state
 * of the message form and the handlers that change it. A preview is the data
 * URL the file reader produced; absent stands for `null`.
 */
module MessageInput {
  import opened Wrappers
  import opened JsText

  /** The object handed to the chat store's `sendMessage`. */
  datatype Payload = Payload(text: string, image: Option<string>)

  /** Whether the form refuses to send: blank text after trim and no image preview. */
  predicate Refuses(text: string, imagePreview: Option<string>)
  {
    Trim(text) == "" && !Truthy(imagePreview)
  }

  /** The refusal condition in plain terms: the text is all whitespace and there is no preview. */
  lemma RefusesMeans(text: string, imagePreview: Option<string>)
    ensures Refuses(text, imagePreview) <==> IsBlank(text) && !Truthy(imagePreview)
  {
    TrimEmptyIffBlank(text);
  }

  /** What is sent: the trimmed text, and the preview when there is one. */
  function PayloadFor(text: string, imagePreview: Option<string>): (p: Payload)
    ensures p.text == Trim(text)
    ensures Truthy(imagePreview) ==> p.image == imagePreview
    ensures !Truthy(imagePreview) ==> p.image.None?
  {
    Payload(Trim(text), if Truthy(imagePreview) then imagePreview else None)
  }

  /** Anything the form sends carries a non-empty text or an image. */
  lemma SentPayloadIsNeverEmpty(text: string, imagePreview: Option<string>)
    requires !Refuses(text, imagePreview)
    ensures PayloadFor(text, imagePreview).text != "" || Truthy(PayloadFor(text, imagePreview).image)
  {
  }

  class MessageForm {
    var text: string
    var imagePreview: Option<string>

    constructor()
      ensures text == "" && imagePreview.None?
    {
      text := "";
      imagePreview := None;
    }

    /** The send button's `disabled` attribute. */
    function SendDisabled(): (d: bool)
      reads this
      ensures d <==> IsBlank(text) && !Truthy(imagePreview)
    {
      RefusesMeans(text, imagePreview);
      Refuses(text, imagePreview)
    }

    /**
     * handleSendMessage: nothing is sent exactly when the send button is
     * disabled; otherwise the payload is sent and, once the store's
     * `sendMessage` resolves, the form is cleared. A rejection leaves it as it was.
     */
    method HandleSendMessage(sendResolves: bool) returns (sent: Option<Payload>)
      modifies this
      ensures sent.None? <==> old(SendDisabled())
      ensures sent.None? <==> Refuses(old(text), old(imagePreview))
      ensures sent.Some? ==> sent.value == PayloadFor(old(text), old(imagePreview))
      ensures sent.Some? && sendResolves ==> text == "" && imagePreview.None?
      ensures sent.None? || !sendResolves ==> text == old(text) && imagePreview == old(imagePreview)
    {
      if Trim(text) == "" && !Truthy(imagePreview) {
        return None;
      }
      sent := Some(Payload(Trim(text), if Truthy(imagePreview) then imagePreview else None));
      if sendResolves {
        text := "";
        imagePreview := None;
      }
    }

    /** handleEmojiClick: the emoji goes at the end of the text. */
    method HandleEmojiClick(emoji: string)
      modifies this`text
      ensures text == old(text) + emoji
      ensures |text| == |old(text)| + |emoji| && text[..|old(text)|] == old(text)
    {
      text := text + emoji;
    }

    /** removeImage. */
    method RemoveImage()
      modifies this`imagePreview
      ensures imagePreview.None?
    {
      imagePreview := None;
    }

    /**
     * handleImageChange, with the file reader's `onloadend` run to completion:
     * a file whose MIME type does not start with "image/" is refused and nothing
     * changes; otherwise the preview becomes the file's data URL.
     */
    method HandleImageChange(mimeType: string, dataUrl: string)
      modifies this`imagePreview
      ensures !StartsWith(mimeType, "image/") ==> imagePreview == old(imagePreview)
      ensures StartsWith(mimeType, "image/") ==> imagePreview == Some(dataUrl)
    {
      if !StartsWith(mimeType, "image/") {
        return;
      }
      imagePreview := Some(dataUrl);
    }
  }
}
