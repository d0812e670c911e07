/** services/geminiService.ts: the four requests the front end sends to the
    remote image model, and how an image is read out of a response. The client
    object, its API key and the network call are not modelled: a call is a
    function `generate` from request to settled response, supplied by the caller. */
module GeminiService {
  import opened Wrappers
  import opened Types

  /** The one model every request names. */
  const ImageEditModel: string := "gemini-2.5-flash-image"

  const RemoveBackgroundPrompt: string :=
    "Remove the background from this image. Make the background transparent so it can be used as a layer. The output must be a PNG image with a transparent background."
  const CartoonifyPrompt: string :=
    "Convert the subject in this image to a vibrant cartoon style. Maintain the transparent background. The output must be a PNG image with a transparent background."
  const CompositePrompt: string :=
    "Layer the first image (the subject) onto the second image (the background). Blend them naturally to create a cohesive final image."
  const ColorPromptPrefix: string :=
    "Place the subject from this image onto a solid background with the hex color "

  /** Response modalities of the client library. */
  datatype Modality = Text | Image | Audio

  datatype InlineData = InlineData(data: string, mimeType: string)

  /** One part of a request: an inline image or an instruction. */
  datatype Part = InlinePart(inlineData: InlineData) | TextPart(text: string)

  datatype Request = Request(model: string, parts: seq<Part>, responseModalities: seq<Modality>)

  /** A response, with every level that the code reaches through `?.` optional. */
  datatype ResponsePart = ResponsePart(inlineData: Option<InlineData>, text: Option<string>)
  datatype Content = Content(parts: Option<seq<ResponsePart>>)
  datatype Candidate = Candidate(content: Option<Content>)
  datatype Response = Response(candidates: Option<seq<Candidate>>)

  /** `response.candidates?.[0]?.content?.parts?.[0]` */
  function FirstPart(response: Response): (part: Option<ResponsePart>)
    ensures part.Some? <==>
      && response.candidates.Some?
      && |response.candidates.value| > 0
      && response.candidates.value[0].content.Some?
      && response.candidates.value[0].content.value.parts.Some?
      && |response.candidates.value[0].content.value.parts.value| > 0
    ensures part.Some? ==> part.value == response.candidates.value[0].content.value.parts.value[0]
  {
    match response.candidates
    case None => None
    case Some(candidates) =>
      if |candidates| == 0 then None
      else match candidates[0].content
        case None => None
        case Some(content) =>
          match content.parts
          case None => None
          case Some(parts) => if |parts| == 0 then None else Some(parts[0])
  }

  /** The response's first candidate has content whose first part carries inline data. */
  predicate LeadsWithImage(response: Response)
  {
    && response.candidates.Some?
    && |response.candidates.value| > 0
    && response.candidates.value[0].content.Some?
    && response.candidates.value[0].content.value.parts.Some?
    && |response.candidates.value[0].content.value.parts.value| > 0
    && response.candidates.value[0].content.value.parts.value[0].inlineData.Some?
  }

  /** `extractImage`: an image exactly when the first part of the first
      candidate carries inline data, copied field by field; null otherwise,
      including when any level on the way is missing. */
  function ExtractImage(response: Response): (image: Option<ImageFile>)
    ensures image.Some? <==> LeadsWithImage(response)
    ensures image.Some? ==>
      var d := response.candidates.value[0].content.value.parts.value[0].inlineData.value;
      image.value.base64 == d.data && image.value.mimeType == d.mimeType
  {
    match FirstPart(response)
    case Some(part) =>
      if part.inlineData.Some? then
        Some(ImageFile(part.inlineData.value.data, part.inlineData.value.mimeType))
      else None
    case None => None
  }

  /** Only the first part of the first candidate is looked at: whatever
      follows it, in that candidate or in later ones, does not matter. */
  lemma ExtractImageReadsOnlyFirstPart(first: ResponsePart, moreParts: seq<ResponsePart>, moreCandidates: seq<Candidate>)
    ensures ExtractImage(Response(Some([Candidate(Some(Content(Some([first] + moreParts))))] + moreCandidates)))
         == ExtractImage(Response(Some([Candidate(Some(Content(Some([first]))))])))
  {
  }

  /** An image in the second part is ignored when the first part is text. */
  lemma ExtractImageIgnoresLaterImage(text: string, later: InlineData)
    ensures ExtractImage(Response(Some([Candidate(Some(Content(Some(
      [ResponsePart(None, Some(text)), ResponsePart(Some(later), None)]))))]))) == None
  {
  }

  /** The inline part that carries `image`. */
  function InlineImage(image: ImageFile): Part
  {
    InlinePart(InlineData(image.base64, image.mimeType))
  }

  /** The images a list of parts carries, in order. */
  function Images(parts: seq<Part>): seq<ImageFile>
  {
    if |parts| == 0 then []
    else
      (match parts[0]
       case InlinePart(d) => [ImageFile(d.data, d.mimeType)]
       case TextPart(_) => [])
      + Images(parts[1..])
  }

  /** The instructions a list of parts carries, in order. */
  function Instructions(parts: seq<Part>): seq<string>
  {
    if |parts| == 0 then []
    else
      (match parts[0]
       case InlinePart(_) => []
       case TextPart(t) => [t])
      + Instructions(parts[1..])
  }

  lemma PartsCons(first: Part, rest: seq<Part>)
    ensures Images([first] + rest) == Images([first]) + Images(rest)
    ensures Instructions([first] + rest) == Instructions([first]) + Instructions(rest)
  {
    assert ([first] + rest)[1..] == rest;
  }

  /** The configuration every request shares: the image model, image output. */
  predicate IsImageEditRequest(request: Request)
  {
    request.model == ImageEditModel && request.responseModalities == [Image]
  }

  /** The images come first and the instruction last, as one text part. */
  predicate ImagesThenInstruction(request: Request)
  {
    && |request.parts| >= 1
    && request.parts[|request.parts| - 1].TextPart?
    && forall i :: 0 <= i < |request.parts| - 1 ==> request.parts[i].InlinePart?
  }

  function ImageEditRequest(parts: seq<Part>): Request
  {
    Request(ImageEditModel, parts, [Image])
  }

  /** The request `removeBackground(image)` sends. */
  function RemoveBackgroundRequest(image: ImageFile): (r: Request)
    ensures IsImageEditRequest(r) && ImagesThenInstruction(r) && |r.parts| == 2
    ensures Images(r.parts) == [image]
    ensures Instructions(r.parts) == [RemoveBackgroundPrompt]
  {
    PartsCons(InlineImage(image), [TextPart(RemoveBackgroundPrompt)]);
    ImageEditRequest([InlineImage(image), TextPart(RemoveBackgroundPrompt)])
  }

  /** The request `cartoonifyImage(image)` sends. */
  function CartoonifyRequest(image: ImageFile): (r: Request)
    ensures IsImageEditRequest(r) && ImagesThenInstruction(r) && |r.parts| == 2
    ensures Images(r.parts) == [image]
    ensures Instructions(r.parts) == [CartoonifyPrompt]
  {
    PartsCons(InlineImage(image), [TextPart(CartoonifyPrompt)]);
    ImageEditRequest([InlineImage(image), TextPart(CartoonifyPrompt)])
  }

  /** The request `combineImageAndBackground(foreground, background)` sends:
      the subject first, then the background. */
  function CombineImageAndBackgroundRequest(foreground: ImageFile, background: ImageFile): (r: Request)
    ensures IsImageEditRequest(r) && ImagesThenInstruction(r) && |r.parts| == 3
    ensures Images(r.parts) == [foreground, background]
    ensures Instructions(r.parts) == [CompositePrompt]
  {
    PartsCons(InlineImage(background), [TextPart(CompositePrompt)]);
    PartsCons(InlineImage(foreground), [InlineImage(background), TextPart(CompositePrompt)]);
    ImageEditRequest([InlineImage(foreground), InlineImage(background), TextPart(CompositePrompt)])
  }

  /** The instruction of a colour composite, with the colour string spliced in verbatim. */
  function ColorPrompt(color: string): (prompt: string)
    ensures |prompt| == |ColorPromptPrefix| + |color| + 1
    ensures prompt[..|ColorPromptPrefix|] == ColorPromptPrefix
    ensures prompt[|ColorPromptPrefix|..|prompt| - 1] == color
    ensures prompt[|prompt| - 1] == '.'
  {
    ColorPromptPrefix + color + "."
  }

  /** Different colours give different instructions. */
  lemma ColorPromptInjective(c1: string, c2: string)
    requires ColorPrompt(c1) == ColorPrompt(c2)
    ensures c1 == c2
  {
  }

  /** The request `combineImageAndColor(foreground, color)` sends. */
  function CombineImageAndColorRequest(foreground: ImageFile, color: string): (r: Request)
    ensures IsImageEditRequest(r) && ImagesThenInstruction(r) && |r.parts| == 2
    ensures Images(r.parts) == [foreground]
    ensures Instructions(r.parts) == [ColorPrompt(color)]
  {
    PartsCons(InlineImage(foreground), [TextPart(ColorPrompt(color))]);
    ImageEditRequest([InlineImage(foreground), TextPart(ColorPrompt(color))])
  }

  /** One `generateContent` call with `request`, followed by `extractImage`.
      A transport failure propagates as a rejection; a response without a
      leading image resolves to None (a soft failure), which is different. */
  function Send(generate: Request -> Settled<Response>, request: Request): (r: Settled<Option<ImageFile>>)
    ensures r.Rejected? <==> generate(request).Rejected?
    ensures r.Rejected? ==> r.reason == generate(request).reason
    ensures r == Resolved(None) <==> generate(request).Resolved? && !LeadsWithImage(generate(request).value)
  {
    match generate(request)
    case Rejected(e) => Rejected(e)
    case Resolved(response) => Resolved(ExtractImage(response))
  }
}
