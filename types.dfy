/** The records of types.ts. */
module Types {

  /** An image as the front end holds it: a base64 payload and its declared media type. */
  datatype ImageFile = ImageFile(base64: string, mimeType: string)

  /** The three kinds of background a composite can use. */
  datatype BackgroundType = Preset | Color | Upload

  /** The selected background. The source's field `type` is called `kind` here
      (`type` is a keyword of Dafny); `value` is a preset URL, a colour string,
      or the marker "custom" for an uploaded image. */
  datatype BackgroundOption = BackgroundOption(kind: BackgroundType, value: string)
}
