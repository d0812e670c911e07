/** App.tsx: the editor's session. Each `useState` slot is a field of the
    class `Session`; each event handler is a method that runs to completion
    (the UI's loading overlay keeps handlers from overlapping). The remote
    calls and file reads a handler awaits are parameters, and every handler
    returns the list of service calls it issued, in order.

    The same handlers are also given as transition functions on a `State`
    value; those functions carry the session's promises, and each method is
    proved to change the fields exactly as its function says. */
module App {
  import opened Wrappers
  import opened Types
  import opened GeminiService

  const PresetBackgrounds: seq<string> := [
    "https://picsum.photos/id/1018/1024/768",
    "https://picsum.photos/id/1015/1024/768",
    "https://picsum.photos/id/1043/1024/768",
    "https://picsum.photos/id/129/1024/768",
    "https://picsum.photos/id/21/1024/768",
    "https://picsum.photos/id/3/1024/768"
  ]

  const RemovingMessage: string := "Removing background..."
  const CartoonMessage: string := "Applying cartoon magic..."
  const CompositingMessage: string := "Compositing your masterpiece..."
  const RemovalFailedMessage: string := "Failed to remove background. The AI couldn't process the image."
  const UnknownRemovalError: string := "An unknown error occurred during background removal."
  const CustomBackgroundFailedMessage: string := "Failed to load custom background."
  const CartoonFailedMessage: string := "Failed to create cartoon version."
  const BackgroundUnavailableMessage: string := "Selected background is not available."
  const GenerateFailedMessage: string := "Failed to generate the final image."
  const UnknownGenerateError: string := "An unknown error occurred during final image generation."

  /** The collaborators a handler awaits: the model's `generateContent`, and
      `urlToImageFile` (fetch, blob and read of a preset URL) as one outcome. */
  datatype Services = Services(
    generate: Request -> Settled<Response>,
    urlToImageFile: string -> Settled<ImageFile>)

  /** A service call issued by a handler. */
  datatype Effect =
    | RemoveBackground(image: ImageFile)
    | CartoonifyImage(image: ImageFile)
    | CombineImageAndBackground(foreground: ImageFile, background: ImageFile)
    | CombineImageAndColor(foreground: ImageFile, color: string)
    | UrlToImageFile(url: string)

  /** The file input's selection: nothing chosen, or a file whose read
      (`fileToImageFile`) settled as given. */
  datatype FileChoice = NoFile | Chosen(read: Settled<ImageFile>)

  /** The component's state, one component per `useState` slot. */
  datatype State = State(
    originalImage: Option<ImageFile>,
    foregroundImage: Option<ImageFile>,
    cartoonVersion: Option<ImageFile>,
    finalImage: Option<ImageFile>,
    background: BackgroundOption,
    customBg: Option<ImageFile>,
    useCartoonEffect: bool,
    isLoading: bool,
    loadingMessage: string,
    error: Option<string>,
    activeBgTab: BackgroundType)

  /** A handler's result: the new state and the service calls made on the way. */
  datatype Transition = Transition(state: State, effects: seq<Effect>)

  /** The outcome of one awaited step and the calls it made. */
  datatype Stage<+T> = Stage(outcome: Settled<T>, effects: seq<Effect>)

  /** The values the `useState` calls start from. */
  function InitialState(): State
  {
    State(None, None, None, None, BackgroundOption(Preset, PresetBackgrounds[0]), None,
          false, false, "", None, Preset)
  }

  /** What holds between handlers. */
  predicate Inv(s: State)
  {
    && (s.background.kind == Upload ==> s.customBg.Some?)
    && (s.background.kind == Preset ==> s.background.value in PresetBackgrounds)
    && (s.cartoonVersion.Some? ==> s.foregroundImage.Some?)
    && (s.finalImage.Some? ==> s.foregroundImage.Some?)
    && (s.originalImage.None? <==> s.foregroundImage.None?)
    && !s.isLoading
    && s.loadingMessage == ""
  }

  lemma InitialStateIsValid()
    ensures Inv(InitialState())
  {
  }

  /** `err instanceof Error ? err.message : fallback` */
  function ErrorMessage(e: Exception, fallback: string): (message: string)
    ensures e.Error? ==> message == e.message
    ensures e.NonError? ==> message == fallback
  {
    match e
    case Error(message) => message
    case NonError => fallback
  }

  /** `if (!x) throw new Error(message)` applied to an awaited image. */
  function OrThrow(r: Settled<Option<ImageFile>>, message: string): (out: Settled<ImageFile>)
    ensures out.Resolved? <==> r.Resolved? && r.value.Some?
    ensures out.Resolved? ==> out.value == r.value.value
    ensures r == Resolved(None) ==> out == Rejected(Error(message))
    ensures r.Rejected? ==> out == Rejected(r.reason)
  {
    match r
    case Rejected(e) => Rejected(e)
    case Resolved(None) => Rejected(Error(message))
    case Resolved(Some(image)) => Resolved(image)
  }

  /** The `finally` block of both long handlers. */
  function Finish(s: State): (r: State)
    ensures !r.isLoading && r.loadingMessage == ""
    ensures r.(isLoading := s.isLoading, loadingMessage := s.loadingMessage) == s
  {
    s.(isLoading := false, loadingMessage := "")
  }

  /** `handleReset`: every setter, in the source's order. */
  function Reset(s: State): (r: State)
    ensures r == InitialState()
    ensures Inv(r)
  {
    s.(originalImage := None, foregroundImage := None, cartoonVersion := None,
       finalImage := None, customBg := None, useCartoonEffect := false,
       isLoading := false, loadingMessage := "", error := None,
       activeBgTab := Preset, background := BackgroundOption(Preset, PresetBackgrounds[0]))
  }

  lemma ResetIdempotent(s: State)
    ensures Reset(Reset(s)) == Reset(s)
  {
  }

  /** The image and foreground a successful upload stores, if it succeeds. */
  function UploadResult(choice: FileChoice, services: Services): Option<(ImageFile, ImageFile)>
  {
    if choice.Chosen? && choice.read.Resolved? then
      var image := choice.read.value;
      match Send(services.generate, RemoveBackgroundRequest(image))
      case Resolved(Some(foreground)) => Some((image, foreground))
      case _ => None
    else None
  }

  /** The `catch` block of `handleImageUpload`: the error is set, and then
      `handleReset()` runs, which sets it back to null. */
  function UploadFailed(s: State, e: Exception): (r: State)
    ensures r == InitialState()
    ensures r.error.None?
  {
    Reset(s.(error := Some(ErrorMessage(e, UnknownRemovalError))))
  }

  /** `handleImageUpload`. */
  function UploadImage(s: State, choice: FileChoice, services: Services): (t: Transition)
    ensures choice.NoFile? ==> t == Transition(s, [])
    ensures choice.Chosen? ==> !t.state.isLoading && t.state.loadingMessage == ""
    ensures choice.Chosen? && choice.read.Resolved? ==> t.effects == [RemoveBackground(choice.read.value)]
    ensures choice.Chosen? && choice.read.Rejected? ==> t.effects == []
    ensures UploadResult(choice, services).Some? ==>
      var (image, foreground) := UploadResult(choice, services).value;
      t.state == s.(originalImage := Some(image), foregroundImage := Some(foreground),
                    error := None, isLoading := false, loadingMessage := "")
    ensures choice.Chosen? && UploadResult(choice, services).None? ==> t.state == InitialState()
    ensures Inv(s) ==> Inv(t.state)
  {
    match choice
    case NoFile => Transition(s, [])
    case Chosen(read) =>
      var started := s.(error := None, isLoading := true, loadingMessage := RemovingMessage);
      match read
      case Rejected(e) => Transition(Finish(UploadFailed(started, e)), [])
      case Resolved(image) =>
        var stored := started.(originalImage := Some(image));
        var effects := [RemoveBackground(image)];
        match OrThrow(Send(services.generate, RemoveBackgroundRequest(image)), RemovalFailedMessage)
        case Rejected(e) => Transition(Finish(UploadFailed(stored, e)), effects)
        case Resolved(foreground) => Transition(Finish(stored.(foregroundImage := Some(foreground))), effects)
  }

  /** `handleCustomBgUpload`. */
  function UploadCustomBackground(s: State, choice: FileChoice): (r: State)
    ensures choice.NoFile? ==> r == s
    ensures choice.Chosen? && choice.read.Resolved? ==>
      r == s.(customBg := Some(choice.read.value), background := BackgroundOption(Upload, "custom"))
    ensures choice.Chosen? && choice.read.Rejected? ==>
      r == s.(error := Some(CustomBackgroundFailedMessage))
    ensures Inv(s) ==> Inv(r)
  {
    match choice
    case NoFile => s
    case Chosen(Resolved(image)) =>
      var withImage := s.(customBg := Some(image));
      withImage.(background := BackgroundOption(Upload, "custom"))
    case Chosen(Rejected(_)) => s.(error := Some(CustomBackgroundFailedMessage))
  }

  /** `cartoonVersion || await cartoonifyImage(foreground)`, then the null check. */
  function CartoonStage(foreground: ImageFile, cached: Option<ImageFile>, services: Services): (st: Stage<ImageFile>)
    ensures cached.Some? ==> st == Stage(Resolved(cached.value), [])
    ensures cached.None? ==> st.effects == [CartoonifyImage(foreground)]
    ensures cached.None? ==>
      st.outcome == OrThrow(Send(services.generate, CartoonifyRequest(foreground)), CartoonFailedMessage)
  {
    if cached.Some? then Stage(Resolved(cached.value), [])
    else
      var cartoon := Send(services.generate, CartoonifyRequest(foreground));
      Stage(OrThrow(cartoon, CartoonFailedMessage), [CartoonifyImage(foreground)])
  }

  /** The foreground `generateFinalImage` composites: the cartoon when the
      effect is on, the background-free image otherwise. */
  function ActiveForeground(s: State, foreground: ImageFile, services: Services): (st: Stage<ImageFile>)
    ensures !s.useCartoonEffect ==> st == Stage(Resolved(foreground), [])
    ensures s.useCartoonEffect ==> st == CartoonStage(foreground, s.cartoonVersion, services)
    ensures forall e <- st.effects :: e == CartoonifyImage(foreground)
  {
    if s.useCartoonEffect then CartoonStage(foreground, s.cartoonVersion, services)
    else Stage(Resolved(foreground), [])
  }

  /** The background image for a non-colour composite. */
  function BackgroundImage(background: BackgroundOption, customBg: Option<ImageFile>, services: Services): (st: Stage<ImageFile>)
    ensures background.kind == Preset ==> st.effects == [UrlToImageFile(background.value)]
    ensures background.kind == Preset ==> st.outcome == services.urlToImageFile(background.value)
    ensures background.kind != Preset ==> st.effects == []
    ensures background.kind == Upload && customBg.Some? ==> st.outcome == Resolved(customBg.value)
    ensures background.kind == Upload && customBg.None? ==>
      st.outcome == Rejected(Error(BackgroundUnavailableMessage))
  {
    var fetched: Stage<Option<ImageFile>> :=
      if background.kind == Preset then
        match services.urlToImageFile(background.value)
        case Rejected(e) => Stage(Rejected(e), [UrlToImageFile(background.value)])
        case Resolved(image) => Stage(Resolved(Some(image)), [UrlToImageFile(background.value)])
      else if background.kind == Upload && customBg.Some? then Stage(Resolved(customBg), [])
      else Stage(Resolved(None), []);
    Stage(OrThrow(fetched.outcome, BackgroundUnavailableMessage), fetched.effects)
  }

  /** The compositing step of `generateFinalImage`, dispatched on the
      background's kind, followed by the null check of the result. */
  function CompositeStage(foreground: ImageFile, background: BackgroundOption, customBg: Option<ImageFile>,
                          services: Services): (st: Stage<ImageFile>)
    ensures background.kind == Color ==>
      st == Stage(OrThrow(Send(services.generate, CombineImageAndColorRequest(foreground, background.value)),
                          GenerateFailedMessage),
                  [CombineImageAndColor(foreground, background.value)])
    ensures background.kind == Preset ==>
      match services.urlToImageFile(background.value)
      case Rejected(e) => st == Stage(Rejected(e), [UrlToImageFile(background.value)])
      case Resolved(image) =>
        st == Stage(OrThrow(Send(services.generate, CombineImageAndBackgroundRequest(foreground, image)),
                            GenerateFailedMessage),
                    [UrlToImageFile(background.value), CombineImageAndBackground(foreground, image)])
    ensures background.kind == Upload && customBg.Some? ==>
      st == Stage(OrThrow(Send(services.generate, CombineImageAndBackgroundRequest(foreground, customBg.value)),
                          GenerateFailedMessage),
                  [CombineImageAndBackground(foreground, customBg.value)])
    ensures background.kind == Upload && customBg.None? ==>
      st == Stage(Rejected(Error(BackgroundUnavailableMessage)), [])
  {
    if background.kind == Color then
      var result := Send(services.generate, CombineImageAndColorRequest(foreground, background.value));
      Stage(OrThrow(result, GenerateFailedMessage), [CombineImageAndColor(foreground, background.value)])
    else
      var bg := BackgroundImage(background, customBg, services);
      match bg.outcome
      case Rejected(e) => Stage(Rejected(e), bg.effects)
      case Resolved(bgImage) =>
        var result := Send(services.generate, CombineImageAndBackgroundRequest(foreground, bgImage));
        Stage(OrThrow(result, GenerateFailedMessage), bg.effects + [CombineImageAndBackground(foreground, bgImage)])
  }

  /** `generateFinalImage`. */
  function Generate(s: State, services: Services): (t: Transition)
    // nothing happens without a foreground
    ensures s.foregroundImage.None? ==> t == Transition(s, [])
    // only the cartoon cache, the result and the status fields change
    ensures t.state == s.(cartoonVersion := t.state.cartoonVersion, finalImage := t.state.finalImage,
                          error := t.state.error, isLoading := t.state.isLoading,
                          loadingMessage := t.state.loadingMessage)
    ensures s.foregroundImage.Some? ==> !t.state.isLoading && t.state.loadingMessage == ""
    // either a result or an error, never both
    ensures s.foregroundImage.Some? ==> (t.state.finalImage.Some? <==> t.state.error.None?)
    // the calls: the cartoon step's, then (if it gave a foreground) the composite's
    ensures s.foregroundImage.Some? ==>
      var active := ActiveForeground(s, s.foregroundImage.value, services);
      match active.outcome
      case Rejected(e) =>
        && t.effects == active.effects
        && t.state.finalImage.None?
        && t.state.error == Some(ErrorMessage(e, UnknownGenerateError))
      case Resolved(foreground) =>
        var composite := CompositeStage(foreground, s.background, s.customBg, services);
        && t.effects == active.effects + composite.effects
        && match composite.outcome
           case Resolved(image) => t.state.finalImage == Some(image)
           case Rejected(e) => t.state.finalImage.None? && t.state.error == Some(ErrorMessage(e, UnknownGenerateError))
    // the cartoon cache: untouched when the effect is off or a cartoon is cached
    ensures !s.useCartoonEffect || s.cartoonVersion.Some? ==>
      && t.state.cartoonVersion == s.cartoonVersion
      && forall e <- t.effects :: !e.CartoonifyImage?
    // a fresh cartoon is kept even when the composite then fails
    ensures s.foregroundImage.Some? && s.useCartoonEffect && s.cartoonVersion.None? ==>
      && t.effects[0] == CartoonifyImage(s.foregroundImage.value)
      && t.state.cartoonVersion ==
           match Send(services.generate, CartoonifyRequest(s.foregroundImage.value))
           case Resolved(Some(cartoon)) => Some(cartoon)
           case _ => None
    ensures Inv(s) ==> Inv(t.state)
  {
    match s.foregroundImage
    case None => Transition(s, [])
    case Some(foreground) =>
      var started := s.(error := None, isLoading := true, finalImage := None);
      var active := ActiveForeground(s, foreground, services);
      var cached := if s.useCartoonEffect && active.outcome.Resolved? then Some(active.outcome.value)
                    else s.cartoonVersion;
      var composite := match active.outcome
        case Rejected(e) => Stage(Rejected(e), [])
        case Resolved(image) => CompositeStage(image, s.background, s.customBg, services);
      var settled := match composite.outcome
        case Resolved(image) => started.(cartoonVersion := cached, finalImage := Some(image))
        case Rejected(e) => started.(cartoonVersion := cached, error := Some(ErrorMessage(e, UnknownGenerateError)));
      Transition(Finish(settled), active.effects + composite.effects)
  }

  /** The cartoon toggle (App.tsx:208). */
  function ToggleCartoon(s: State): (r: State)
    ensures r.useCartoonEffect == !s.useCartoonEffect
    ensures r.(useCartoonEffect := s.useCartoonEffect) == s
    ensures Inv(s) ==> Inv(r)
  {
    s.(useCartoonEffect := !s.useCartoonEffect)
  }

  lemma ToggleCartoonTwice(s: State)
    ensures ToggleCartoon(ToggleCartoon(s)) == s
  {
  }

  /** A tab button (App.tsx:176). */
  function ClickTab(s: State, tab: BackgroundType): (r: State)
    ensures r.activeBgTab == tab
    ensures r.(activeBgTab := s.activeBgTab) == s
    ensures Inv(s) ==> Inv(r)
  {
    s.(activeBgTab := tab)
  }

  /** A preset thumbnail (App.tsx:185); only the listed URLs have one. */
  function PickPreset(s: State, url: string): (r: State)
    requires url in PresetBackgrounds
    ensures r.background == BackgroundOption(Preset, url)
    ensures r.(background := s.background) == s
    ensures Inv(s) ==> Inv(r)
  {
    s.(background := BackgroundOption(Preset, url))
  }

  /** The colour input (App.tsx:191). */
  function PickColor(s: State, color: string): (r: State)
    ensures r.background == BackgroundOption(Color, color)
    ensures r.(background := s.background) == s
    ensures Inv(s) ==> Inv(r)
  {
    s.(background := BackgroundOption(Color, color))
  }

  /** The `imageToDisplay` selector. */
  function ImageToDisplay(s: State): (r: Option<ImageFile>)
    ensures s.finalImage.Some? ==> r == s.finalImage
    ensures r.Some? ==> r == s.finalImage || r == s.cartoonVersion || r == s.foregroundImage
    ensures Inv(s) ==> (r.None? <==> s.foregroundImage.None?)
  {
    if s.finalImage.Some? then s.finalImage
    else if s.useCartoonEffect && s.cartoonVersion.Some? then s.cartoonVersion
    else s.foregroundImage
  }

  /** With the effect on and a cartoon cached, the cartoon is shown until a
      final image exists; with the effect off the foreground is. */
  lemma DisplayFollowsToggle(s: State)
    requires s.finalImage.None? && s.cartoonVersion.Some?
    ensures ImageToDisplay(s) == (if s.useCartoonEffect then s.cartoonVersion else s.foregroundImage)
    ensures ImageToDisplay(ToggleCartoon(s)) ==
      (if s.useCartoonEffect then s.foregroundImage else s.cartoonVersion)
  {
  }

  /** On an `upload` background the "not available" branch is never taken:
      the composite is requested with the stored custom image. */
  lemma UploadBackgroundIsAvailable(s: State, foreground: ImageFile, services: Services)
    requires Inv(s) && s.background.kind == Upload
    ensures CompositeStage(foreground, s.background, s.customBg, services).effects
         == [CombineImageAndBackground(foreground, s.customBg.value)]
  {
  }

  /** Turning the effect on, generating, turning it off and on again and
      generating once more calls `cartoonifyImage` only the first time. */
  lemma CartoonComputedOnce(s: State, services: Services)
    requires Inv(s) && s.foregroundImage.Some? && s.cartoonVersion.None? && !s.useCartoonEffect
    requires Send(services.generate, CartoonifyRequest(s.foregroundImage.value)).Resolved?
    requires Send(services.generate, CartoonifyRequest(s.foregroundImage.value)).value.Some?
    ensures var first := Generate(ToggleCartoon(s), services);
            var second := Generate(ToggleCartoon(ToggleCartoon(first.state)), services);
            && first.effects[0] == CartoonifyImage(s.foregroundImage.value)
            && forall e <- second.effects :: !e.CartoonifyImage?
  {
    var first := Generate(ToggleCartoon(s), services);
    assert first.state.cartoonVersion.Some?;
    var again := ToggleCartoon(ToggleCartoon(first.state));
    assert again.useCartoonEffect && again.cartoonVersion.Some?;
  }

  /** After a successful generation the final image is what is shown, and it
      holds until the next generation or reset. */
  lemma FinalImageIsDisplayed(s: State, services: Services)
    requires Generate(s, services).state.finalImage.Some?
    ensures ImageToDisplay(Generate(s, services).state) == Generate(s, services).state.finalImage
    ensures ImageToDisplay(ToggleCartoon(Generate(s, services).state)) == Generate(s, services).state.finalImage
  {
  }

  /** The session of App.tsx, one field per `useState` slot. */
  class Session {
    var originalImage: Option<ImageFile>
    var foregroundImage: Option<ImageFile>
    var cartoonVersion: Option<ImageFile>
    var finalImage: Option<ImageFile>
    var background: BackgroundOption
    var customBg: Option<ImageFile>
    var useCartoonEffect: bool
    var isLoading: bool
    var loadingMessage: string
    var error: Option<string>
    var activeBgTab: BackgroundType

    /** The fields as one value. */
    function Snapshot(): State
      reads this
    {
      State(originalImage, foregroundImage, cartoonVersion, finalImage, background, customBg,
            useCartoonEffect, isLoading, loadingMessage, error, activeBgTab)
    }

    predicate Valid()
      reads this
    {
      Inv(Snapshot())
    }

    /** The first render: every `useState` initial value. */
    constructor ()
      ensures Snapshot() == InitialState() && Valid()
    {
      originalImage := None;
      foregroundImage := None;
      cartoonVersion := None;
      finalImage := None;
      background := BackgroundOption(Preset, PresetBackgrounds[0]);
      customBg := None;
      useCartoonEffect := false;
      isLoading := false;
      loadingMessage := "";
      error := None;
      activeBgTab := Preset;
    }

    method HandleReset()
      modifies this
      ensures Snapshot() == Reset(old(Snapshot()))
      ensures Snapshot() == InitialState() && Valid()
    {
      originalImage := None;
      foregroundImage := None;
      cartoonVersion := None;
      finalImage := None;
      customBg := None;
      useCartoonEffect := false;
      isLoading := false;
      loadingMessage := "";
      error := None;
      activeBgTab := Preset;
      background := BackgroundOption(Preset, PresetBackgrounds[0]);
    }

    method HandleImageUpload(choice: FileChoice, services: Services) returns (effects: seq<Effect>)
      modifies this
      ensures Snapshot() == UploadImage(old(Snapshot()), choice, services).state
      ensures effects == UploadImage(old(Snapshot()), choice, services).effects
      ensures old(Valid()) ==> Valid()
    {
      effects := [];
      if choice.NoFile? { return; }

      error := None;
      isLoading := true;
      loadingMessage := RemovingMessage;

      var thrown: Option<Exception> := None;
      match choice.read {
        case Rejected(e) =>
          thrown := Some(e);
        case Resolved(imageFile) =>
          originalImage := Some(imageFile);
          effects := effects + [RemoveBackground(imageFile)];
          match Send(services.generate, RemoveBackgroundRequest(imageFile)) {
            case Rejected(e) =>
              thrown := Some(e);
            case Resolved(fgImage) =>
              if fgImage.None? {
                thrown := Some(Error(RemovalFailedMessage));
              } else {
                foregroundImage := fgImage;
              }
          }
      }

      if thrown.Some? {
        error := Some(ErrorMessage(thrown.value, UnknownRemovalError));
        HandleReset();
      }
      isLoading := false;
      loadingMessage := "";
    }

    method HandleCustomBgUpload(choice: FileChoice)
      modifies this
      ensures Snapshot() == UploadCustomBackground(old(Snapshot()), choice)
      ensures old(Valid()) ==> Valid()
    {
      if choice.NoFile? { return; }
      match choice.read {
        case Resolved(bgFile) =>
          customBg := Some(bgFile);
          background := BackgroundOption(Upload, "custom");
        case Rejected(_) =>
          error := Some(CustomBackgroundFailedMessage);
      }
    }

    /** The cartoon step of `generateFinalImage`: the cached cartoon, or a
        fresh one that is stored at once; the outcome is the foreground to
        composite, or what was thrown. */
    method ApplyCartoonEffect(foreground: ImageFile, services: Services)
      returns (active: Settled<ImageFile>, calls: seq<Effect>)
      modifies this`cartoonVersion, this`loadingMessage
      ensures Stage(active, calls) == ActiveForeground(old(Snapshot()), foreground, services)
      ensures cartoonVersion ==
        if old(useCartoonEffect) && active.Resolved? then Some(active.value) else old(cartoonVersion)
      ensures loadingMessage == if old(useCartoonEffect) then CartoonMessage else old(loadingMessage)
    {
      calls := [];
      active := Resolved(foreground);
      if useCartoonEffect {
        loadingMessage := CartoonMessage;
        var cartoon := cartoonVersion;
        if cartoon.None? {
          calls := [CartoonifyImage(foreground)];
          match Send(services.generate, CartoonifyRequest(foreground)) {
            case Rejected(e) => active := Rejected(e);
            case Resolved(c) => cartoon := c;
          }
        }
        if active.Resolved? {
          if cartoon.None? {
            active := Rejected(Error(CartoonFailedMessage));
          } else {
            cartoonVersion := cartoon;
            active := Resolved(cartoon.value);
          }
        }
      }
    }

    /** The compositing step of `generateFinalImage`: dispatch on the
        background's kind, then the null check of the result. */
    method CompositeFinalImage(activeForeground: ImageFile, services: Services)
      returns (result: Settled<ImageFile>, calls: seq<Effect>)
      ensures Stage(result, calls) == CompositeStage(activeForeground, background, customBg, services)
    {
      calls := [];
      var image: Option<ImageFile> := None;
      var thrown: Option<Exception> := None;
      if background.kind == Color {
        calls := [CombineImageAndColor(activeForeground, background.value)];
        match Send(services.generate, CombineImageAndColorRequest(activeForeground, background.value)) {
          case Rejected(e) => thrown := Some(e);
          case Resolved(r) => image := r;
        }
      } else {
        var bgImage: Option<ImageFile> := None;
        if background.kind == Preset {
          calls := [UrlToImageFile(background.value)];
          match services.urlToImageFile(background.value) {
            case Rejected(e) => thrown := Some(e);
            case Resolved(b) => bgImage := Some(b);
          }
        } else if background.kind == Upload && customBg.Some? {
          bgImage := customBg;
        }
        if thrown.None? {
          if bgImage.None? {
            thrown := Some(Error(BackgroundUnavailableMessage));
          } else {
            calls := calls + [CombineImageAndBackground(activeForeground, bgImage.value)];
            match Send(services.generate, CombineImageAndBackgroundRequest(activeForeground, bgImage.value)) {
              case Rejected(e) => thrown := Some(e);
              case Resolved(r) => image := r;
            }
          }
        }
      }
      if thrown.Some? {
        result := Rejected(thrown.value);
      } else if image.None? {
        result := Rejected(Error(GenerateFailedMessage));
      } else {
        result := Resolved(image.value);
      }
    }

    method GenerateFinalImage(services: Services) returns (effects: seq<Effect>)
      modifies this
      ensures Snapshot() == Generate(old(Snapshot()), services).state
      ensures effects == Generate(old(Snapshot()), services).effects
      ensures old(Valid()) ==> Valid()
    {
      effects := [];
      if foregroundImage.None? { return; }
      var foreground := foregroundImage.value;

      error := None;
      isLoading := true;
      finalImage := None;

      var active, cartoonCalls := ApplyCartoonEffect(foreground, services);
      effects := cartoonCalls;
      match active {
        case Rejected(e) =>
          error := Some(ErrorMessage(e, UnknownGenerateError));
        case Resolved(activeForeground) =>
          loadingMessage := CompositingMessage;
          var result, compositeCalls := CompositeFinalImage(activeForeground, services);
          effects := effects + compositeCalls;
          match result {
            case Resolved(image) => finalImage := Some(image);
            case Rejected(e) => error := Some(ErrorMessage(e, UnknownGenerateError));
          }
      }
      isLoading := false;
      loadingMessage := "";
    }

    method ToggleCartoonEffect()
      modifies this
      ensures Snapshot() == ToggleCartoon(old(Snapshot()))
      ensures old(Valid()) ==> Valid()
    {
      useCartoonEffect := !useCartoonEffect;
    }

    method SelectTab(tab: BackgroundType)
      modifies this
      ensures Snapshot() == ClickTab(old(Snapshot()), tab)
      ensures old(Valid()) ==> Valid()
    {
      activeBgTab := tab;
    }

    method SelectPreset(url: string)
      requires url in PresetBackgrounds
      modifies this
      ensures Snapshot() == PickPreset(old(Snapshot()), url)
      ensures old(Valid()) ==> Valid()
    {
      background := BackgroundOption(Preset, url);
    }

    method SelectColor(color: string)
      modifies this
      ensures Snapshot() == PickColor(old(Snapshot()), color)
      ensures old(Valid()) ==> Valid()
    {
      background := BackgroundOption(Color, color);
    }
  }

  /** Upload a photo whose background removal gives `foreground`, pick a
      colour and generate: exactly one colour composite of `foreground` with
      that colour is requested, and its result becomes the final image. */
  method ColorScenario(services: Services, photo: ImageFile, foreground: ImageFile, color: string, composite: ImageFile)
    returns (uploadCalls: seq<Effect>, generateCalls: seq<Effect>, shown: Option<ImageFile>)
    requires Send(services.generate, RemoveBackgroundRequest(photo)) == Resolved(Some(foreground))
    requires Send(services.generate, CombineImageAndColorRequest(foreground, color)) == Resolved(Some(composite))
    ensures uploadCalls == [RemoveBackground(photo)]
    ensures generateCalls == [CombineImageAndColor(foreground, color)]
    ensures shown == Some(composite)
  {
    var session := new Session();
    uploadCalls := session.HandleImageUpload(Chosen(Resolved(photo)), services);
    session.SelectTab(Color);
    session.SelectColor(color);
    generateCalls := session.GenerateFinalImage(services);
    shown := ImageToDisplay(session.Snapshot());
  }

  /** A generation whose composite comes back without an image keeps the
      session: the foreground stays, there is no final image, and the error
      is the source's message for that case. */
  method FailedGenerateScenario(services: Services, photo: ImageFile, foreground: ImageFile, color: string)
    returns (kept: Option<ImageFile>, final: Option<ImageFile>, error: Option<string>)
    requires Send(services.generate, RemoveBackgroundRequest(photo)) == Resolved(Some(foreground))
    requires Send(services.generate, CombineImageAndColorRequest(foreground, color)) == Resolved(None)
    ensures kept == Some(foreground) && final == None && error == Some(GenerateFailedMessage)
  {
    var session := new Session();
    var _ := session.HandleImageUpload(Chosen(Resolved(photo)), services);
    session.SelectColor(color);
    var _ := session.GenerateFinalImage(services);
    kept, final, error := session.foregroundImage, session.finalImage, session.error;
  }

  /** Preset background, cartoon effect on: the calls are, in order, the
      cartoon of the foreground, the fetch of the preset, and the composite
      of the cartoon over the fetched image. */
  method PresetCartoonScenario(services: Services, photo: ImageFile, foreground: ImageFile,
                               cartoon: ImageFile, url: string)
    returns (generateCalls: seq<Effect>)
    requires url in PresetBackgrounds
    requires Send(services.generate, RemoveBackgroundRequest(photo)) == Resolved(Some(foreground))
    requires Send(services.generate, CartoonifyRequest(foreground)) == Resolved(Some(cartoon))
    requires services.urlToImageFile(url).Resolved?
    ensures generateCalls == [CartoonifyImage(foreground), UrlToImageFile(url),
                              CombineImageAndBackground(cartoon, services.urlToImageFile(url).value)]
  {
    var session := new Session();
    var _ := session.HandleImageUpload(Chosen(Resolved(photo)), services);
    session.SelectTab(Preset);
    session.SelectPreset(url);
    session.ToggleCartoonEffect();
    generateCalls := session.GenerateFinalImage(services);
  }

  /** A failed upload, whatever the reason, leaves the session exactly as a
      reset does, with no error shown. */
  method FailedUploadScenario(services: Services, read: Settled<ImageFile>) returns (after: State)
    requires read.Resolved? ==> Send(services.generate, RemoveBackgroundRequest(read.value)).Resolved?
    requires read.Resolved? ==> Send(services.generate, RemoveBackgroundRequest(read.value)).value.None?
    ensures after == InitialState() && after.error.None?
  {
    var session := new Session();
    session.SelectColor("#00ff00");
    session.ToggleCartoonEffect();
    var _ := session.HandleImageUpload(Chosen(read), services);
    after := session.Snapshot();
  }
}
