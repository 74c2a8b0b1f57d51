/**
 * The browser-side upload/submit controller of the virtual try-on page
 * (class VirtualTryOnApp in static/script.js). The page's elements are fields of
 * the controller: the two image slots, the try-on button (its `disabled` property,
 * its 'disabled' class, its label and its spinner), the error banner, the result
 * section and the two preview panes. The network round trip is split into
 * StartSubmit and CompleteSubmit, so that any other event may come in between, as
 * it may while the real `fetch` is awaited.
 */
module Client {
  import opened Wrappers
  import opened Text

  /** A file the user picked: its name, its declared MIME type and its size in bytes. */
  datatype FileInfo = FileInfo(name: string, mimeType: string, size: nat)

  /** The upload slot a file input feeds ('person' or 'clothing'). */
  datatype Role = Person | Clothing

  const IMAGE_PREFIX := "image/"
  const MAX_IMAGE_BYTES: nat := 20 * 1024 * 1024
  const VALID_TYPES: seq<string> :=
    ["image/jpeg", "image/jpg", "image/png", "image/gif", "image/webp", "image/heic", "image/heif"]

  const TYPE_MESSAGE := "Please select a valid image file (JPEG, PNG, GIF, WebP, HEIC, HEIF)."
  const SIZE_MESSAGE := "Image size should be less than 20MB."
  const MISSING_MESSAGE := "Please upload both person and clothing images."
  const FAILURE_PREFIX := "Failed to process virtual try-on: "
  const DEFAULT_FAILURE := "Virtual try-on failed"
  const INVALID_RESPONSE := "Invalid response from server"
  const NO_RESULT_MESSAGE := "No result image to download."
  const DOWNLOAD_FAILED_MESSAGE := "Failed to download image. Please try right-clicking and saving the image."
  const DOWNLOAD_PREFIX := "virtual-tryon-result-"
  const DOWNLOAD_SUFFIX := ".png"

  /**
   * The allow-list test of `isValidImageType`. Every entry is an `image/` type, so
   * the allow-list never admits a file that the prefix test refuses.
   */
  predicate IsValidImageType(f: FileInfo)
    ensures IsValidImageType(f) ==> StartsWith(f.mimeType, IMAGE_PREFIX)
  {
    f.mimeType in VALID_TYPES
  }

  datatype Verdict = Accepted | Rejected(message: string)

  /**
   * The two guards of `handleImageUpload`, type first and size second. A file is
   * accepted exactly when its type starts with `image/` and it is at most 20 MiB;
   * an oversized non-image gets the type message.
   */
  function Validate(f: FileInfo): (v: Verdict)
    ensures v == Accepted <==> StartsWith(f.mimeType, IMAGE_PREFIX) && f.size <= MAX_IMAGE_BYTES
    ensures v == Rejected(TYPE_MESSAGE) <==> !StartsWith(f.mimeType, IMAGE_PREFIX)
    ensures v == Rejected(SIZE_MESSAGE) <==> StartsWith(f.mimeType, IMAGE_PREFIX) && f.size > MAX_IMAGE_BYTES
  {
    if !StartsWith(f.mimeType, IMAGE_PREFIX) && !IsValidImageType(f) then Rejected(TYPE_MESSAGE)
    else if f.size > MAX_IMAGE_BYTES then Rejected(SIZE_MESSAGE)
    else Accepted
  }

  /** JavaScript truthiness of an optional string field: present and non-empty. */
  predicate Present(s: Option<string>)
  {
    s.Some? && s.value != ""
  }

  /**
   * How the awaited request ended, as the page sees it: either something threw
   * (`fetch` rejected, or `response.json()` could not parse the body), or a reply
   * came with `response.ok` and the fields `success`, `error` and `result_image` of
   * its JSON body.
   */
  datatype Outcome =
    | Thrown(message: string)
    | Replied(ok: bool, success: Option<bool>, error: Option<string>, resultImage: Option<string>)

  /** What the try/catch of `performVirtualTryOn` does with an outcome. */
  datatype Completion = Render(src: string) | Report(message: string)

  /** The error message `performVirtualTryOn` surfaces for an outcome it does not render. */
  function Reason(o: Outcome): string
  {
    match o
    case Thrown(m) => m
    case Replied(ok, _, error, _) =>
      if !ok then (if Present(error) then error.value else DEFAULT_FAILURE)
      else INVALID_RESPONSE
  }

  /**
   * A result is rendered exactly for an ok reply with a true `success` and a
   * non-empty `result_image`, and then it is that string, so a rendered result can
   * always be downloaded. Every other outcome surfaces one message with the common
   * prefix.
   */
  function Classify(o: Outcome): (c: Completion)
    ensures c.Render? <==> o.Replied? && o.ok && o.success == Some(true) && Present(o.resultImage)
    ensures c.Render? ==> c.src == o.resultImage.value && c.src != ""
    ensures c.Report? ==> StartsWith(c.message, FAILURE_PREFIX) && c.message[|FAILURE_PREFIX|..] == Reason(o)
  {
    if o.Replied? && o.ok && o.success == Some(true) && Present(o.resultImage) then Render(o.resultImage.value)
    else Report(FAILURE_PREFIX + Reason(o))
  }

  /** The name `downloadResult` gives the saved file; the timestamp reads back from it. */
  function DownloadName(timestamp: nat): (name: string)
    ensures |name| > |DOWNLOAD_PREFIX| + |DOWNLOAD_SUFFIX|
    ensures StartsWith(name, DOWNLOAD_PREFIX)
    ensures name[|name| - |DOWNLOAD_SUFFIX|..] == DOWNLOAD_SUFFIX
    ensures AllDigits(name[|DOWNLOAD_PREFIX|..|name| - |DOWNLOAD_SUFFIX|])
    ensures (name[|DOWNLOAD_PREFIX|] == '0') == (timestamp == 0)
    ensures ReadNumber(name[|DOWNLOAD_PREFIX|..]) == timestamp
  {
    var name := DOWNLOAD_PREFIX + Decimal(timestamp) + DOWNLOAD_SUFFIX;
    assert name[|DOWNLOAD_PREFIX|..] == Decimal(timestamp) + DOWNLOAD_SUFFIX;
    assert name[|DOWNLOAD_PREFIX|..|name| - |DOWNLOAD_SUFFIX|] == Decimal(timestamp);
    ReadDecimal(timestamp, DOWNLOAD_SUFFIX);
    name
  }

  /** The link `downloadResult` clicks: the image it points at and the file name. */
  datatype Link = Link(href: string, download: string)

  /** The multipart request `performVirtualTryOn` posts: `person_image` and `clothing_image`. */
  datatype TryOnRequest = TryOnRequest(personImage: FileInfo, clothingImage: FileInfo)

  /** A preview pane: the `<img>` source, whether it is shown, whether the placeholder is shown. */
  datatype Preview = Preview(src: string, imageShown: bool, placeholderShown: bool)

  const EMPTY_PREVIEW := Preview("", false, true)

  /** Every field of the controller and its page, in one value. */
  datatype PageState = PageState(
    personImage: Option<FileInfo>,
    clothingImage: Option<FileInfo>,
    buttonDisabled: bool,
    disabledClass: bool,
    labelShown: bool,
    spinnerShown: bool,
    errorShown: bool,
    errorText: string,
    resultShown: bool,
    resultSrc: string,
    personPreview: Preview,
    clothingPreview: Preview)

  /** The page as loaded: no images, the button disabled and idle, nothing shown. */
  const INITIAL_STATE := PageState(None, None, true, true, true, false, false, "", false, "", EMPTY_PREVIEW, EMPTY_PREVIEW)

  class VirtualTryOnApp {
    var personImage: Option<FileInfo>
    var clothingImage: Option<FileInfo>
    // the try-on button
    var buttonDisabled: bool
    var disabledClass: bool
    var labelShown: bool
    var spinnerShown: bool
    // the error banner
    var errorShown: bool
    var errorText: string
    // the result section
    var resultShown: bool
    var resultSrc: string
    // the preview panes
    var personPreview: Preview
    var clothingPreview: Preview

    function State(): PageState
      reads this
    {
      PageState(personImage, clothingImage, buttonDisabled, disabledClass, labelShown, spinnerShown,
                  errorShown, errorText, resultShown, resultSrc, personPreview, clothingPreview)
    }

    predicate HasAllImages()
      reads this
    {
      personImage.Some? && clothingImage.Some?
    }

    /** The state `updateTryOnButton` leaves: disabled iff a slot is empty, the class iff disabled. */
    predicate ButtonTracksSlots()
      reads this
    {
      buttonDisabled == !HasAllImages() && disabledClass == buttonDisabled
    }

    /**
     * Label and spinner alternate; the button is either disabled or tracks the
     * slots; and whenever no request is loading it tracks the slots.
     */
    predicate Valid()
      reads this
      ensures Valid() ==> (!buttonDisabled ==> HasAllImages())
    {
      && labelShown == !spinnerShown
      && (buttonDisabled || ButtonTracksSlots())
      && (!spinnerShown ==> ButtonTracksSlots())
    }

    constructor ()
      ensures Valid() && State() == INITIAL_STATE
    {
      personImage, clothingImage := None, None;
      buttonDisabled, disabledClass, labelShown, spinnerShown := true, true, true, false;
      errorShown, errorText := false, "";
      resultShown, resultSrc := false, "";
      personPreview, clothingPreview := EMPTY_PREVIEW, EMPTY_PREVIEW;
    }

    method ShowError(message: string)
      modifies this
      ensures State() == old(State()).(errorText := message, errorShown := true)
    {
      errorText := message;
      errorShown := true;
    }

    method HideError()
      modifies this
      ensures State() == old(State()).(errorShown := false)
    {
      errorShown := false;
    }

    /** The 10-second timer `showError` arms: it hides the banner whatever was shown since. */
    method ErrorTimerFired()
      requires Valid()
      modifies this
      ensures Valid()
      ensures State() == old(State()).(errorShown := false)
    {
      HideError();
    }

    method ShowResult(src: string)
      modifies this
      ensures State() == old(State()).(resultSrc := src, resultShown := true)
    {
      resultSrc := src;
      resultShown := true;
    }

    method HideResult()
      modifies this
      ensures State() == old(State()).(resultShown := false)
    {
      resultShown := false;
    }

    method UpdateTryOnButton()
      modifies this
      ensures ButtonTracksSlots()
      ensures State() == old(State()).(buttonDisabled := !old(HasAllImages()), disabledClass := !old(HasAllImages()))
    {
      var hasAllImages := personImage.Some? && clothingImage.Some?;
      buttonDisabled := !hasAllImages;
      if hasAllImages {
        disabledClass := false;
      } else {
        disabledClass := true;
      }
    }

    /**
     * A change event on a file input. No file: nothing happens. A rejected file
     * changes only the error banner. An accepted file replaces the role's slot
     * (the other slot is untouched), re-evaluates the button and hides the banner;
     * its preview appears later, with PreviewLoaded.
     */
    method HandleImageUpload(file: Option<FileInfo>, role: Role)
      requires Valid()
      modifies this
      ensures Valid()
      ensures file.None? ==> State() == old(State())
      ensures file.Some? && Validate(file.value).Rejected? ==>
        State() == old(State()).(errorText := Validate(file.value).message, errorShown := true)
      ensures file.Some? && Validate(file.value) == Accepted ==>
        && personImage == (if role == Person then file else old(personImage))
        && clothingImage == (if role == Clothing then file else old(clothingImage))
        && State() == old(State()).(personImage := personImage, clothingImage := clothingImage,
                                  buttonDisabled := !HasAllImages(), disabledClass := !HasAllImages(),
                                  errorShown := false)
    {
      if file.None? {
        return;
      }
      var f := file.value;
      if !StartsWith(f.mimeType, IMAGE_PREFIX) && !IsValidImageType(f) {
        ShowError(TYPE_MESSAGE);
        return;
      }
      if f.size > MAX_IMAGE_BYTES {
        ShowError(SIZE_MESSAGE);
        return;
      }
      if role == Person {
        personImage := file;
      } else {
        clothingImage := file;
      }
      UpdateTryOnButton();
      HideError();
    }

    /** The FileReader's load event for a preview: it shows the image, whatever happened since. */
    method PreviewLoaded(role: Role, dataUrl: string)
      requires Valid()
      modifies this
      ensures Valid()
      ensures role == Person ==> State() == old(State()).(personPreview := Preview(dataUrl, true, false))
      ensures role == Clothing ==> State() == old(State()).(clothingPreview := Preview(dataUrl, true, false))
    {
      if role == Person {
        personPreview := Preview(dataUrl, true, false);
      } else {
        clothingPreview := Preview(dataUrl, true, false);
      }
    }

    /**
     * The synchronous part of `performVirtualTryOn`, up to the `fetch`. With a slot
     * empty it only shows an error and sends nothing; otherwise it sends both files,
     * disables the button, swaps the label for the spinner and hides the error and
     * the result.
     */
    method StartSubmit() returns (request: Option<TryOnRequest>)
      requires Valid()
      modifies this
      ensures Valid()
      ensures request.Some? <==> old(HasAllImages())
      ensures request.Some? ==> request.value == TryOnRequest(old(personImage).value, old(clothingImage).value)
      ensures request.None? ==> State() == old(State()).(errorText := MISSING_MESSAGE, errorShown := true)
      ensures request.Some? ==>
        State() == old(State()).(buttonDisabled := true, labelShown := false, spinnerShown := true,
                               errorShown := false, resultShown := false)
    {
      if personImage.None? || clothingImage.None? {
        ShowError(MISSING_MESSAGE);
        return None;
      }
      buttonDisabled := true;
      labelShown := false;
      spinnerShown := true;
      HideError();
      HideResult();
      request := Some(TryOnRequest(personImage.value, clothingImage.value));
    }

    /**
     * The rest of `performVirtualTryOn`, once the request has ended: render or
     * report as Classify says, then (the `finally` block) restore the label, hide
     * the spinner and set the button from the slots as they are now.
     */
    method CompleteSubmit(outcome: Outcome)
      requires Valid()
      modifies this
      ensures Valid() && ButtonTracksSlots() && labelShown && !spinnerShown
      ensures Classify(outcome).Render? ==>
        State() == old(State()).(resultSrc := Classify(outcome).src, resultShown := true,
                               labelShown := true, spinnerShown := false,
                               buttonDisabled := !HasAllImages(), disabledClass := !HasAllImages())
      ensures Classify(outcome).Report? ==>
        State() == old(State()).(errorText := Classify(outcome).message, errorShown := true,
                               labelShown := true, spinnerShown := false,
                               buttonDisabled := !HasAllImages(), disabledClass := !HasAllImages())
    {
      match outcome {
        case Thrown(message) =>
          ShowError(FAILURE_PREFIX + message);
        case Replied(ok, success, error, resultImage) =>
          if !ok {
            ShowError(FAILURE_PREFIX + (if Present(error) then error.value else DEFAULT_FAILURE));
          } else if success == Some(true) && Present(resultImage) {
            ShowResult(resultImage.value);
          } else {
            ShowError(FAILURE_PREFIX + INVALID_RESPONSE);
          }
      }
      buttonDisabled := false;
      labelShown := true;
      spinnerShown := false;
      UpdateTryOnButton();
    }

    /**
     * The download button. With no result source it shows an error and saves
     * nothing; otherwise it saves the shown image under a name carrying the
     * timestamp, unless the save throws (`saveThrows`), which shows a hint instead.
     */
    method DownloadResult(timestamp: nat, saveThrows: bool) returns (saved: Option<Link>)
      requires Valid()
      modifies this
      ensures Valid()
      ensures saved.Some? <==> old(resultSrc) != "" && !saveThrows
      ensures saved.Some? ==> saved.value == Link(resultSrc, DownloadName(timestamp))
      ensures old(resultSrc) == "" ==> State() == old(State()).(errorText := NO_RESULT_MESSAGE, errorShown := true)
      ensures old(resultSrc) != "" && saveThrows ==>
        State() == old(State()).(errorText := DOWNLOAD_FAILED_MESSAGE, errorShown := true)
      ensures saved.Some? ==> State() == old(State())
    {
      if resultSrc == "" {
        ShowError(NO_RESULT_MESSAGE);
        return None;
      }
      if saveThrows {
        ShowError(DOWNLOAD_FAILED_MESSAGE);
        return None;
      }
      saved := Some(Link(resultSrc, DownloadName(timestamp)));
    }

    method ResetPreview(role: Role)
      modifies this
      ensures role == Person ==> State() == old(State()).(personPreview := EMPTY_PREVIEW)
      ensures role == Clothing ==> State() == old(State()).(clothingPreview := EMPTY_PREVIEW)
    {
      if role == Person {
        personPreview := Preview("", false, true);
      } else {
        clothingPreview := Preview("", false, true);
      }
    }

    /**
     * The try-again button: both slots emptied, both previews back to their
     * placeholders, result and error hidden, the button disabled. The spinner and
     * label are left as they are, and the result image keeps its source.
     */
    method ResetForm()
      requires Valid()
      modifies this
      ensures Valid()
      ensures State() == old(State()).(personImage := None, clothingImage := None,
                                     personPreview := EMPTY_PREVIEW, clothingPreview := EMPTY_PREVIEW,
                                     resultShown := false, errorShown := false,
                                     buttonDisabled := true, disabledClass := true)
    {
      personImage := None;
      clothingImage := None;
      ResetPreview(Person);
      ResetPreview(Clothing);
      HideResult();
      HideError();
      UpdateTryOnButton();
    }
  }

  /**
   * After a reset, picking two acceptable files enables the button again (even
   * while an earlier request is still loading), and nothing of the earlier error
   * or result is visible.
   */
  method ReselectAfterReset(app: VirtualTryOnApp, person: FileInfo, clothing: FileInfo)
    requires app.Valid()
    requires Validate(person) == Accepted && Validate(clothing) == Accepted
    modifies app
    ensures app.Valid()
    ensures app.personImage == Some(person) && app.clothingImage == Some(clothing)
    ensures !app.buttonDisabled && !app.disabledClass
    ensures !app.errorShown && !app.resultShown
  {
    app.ResetForm();
    app.HandleImageUpload(Some(person), Person);
    app.HandleImageUpload(Some(clothing), Clothing);
  }

  /**
   * Nothing stops a second request while the first is outstanding: resetting and
   * picking two files again re-enables the button, and a second submission starts
   * before the first has completed.
   */
  method OverlappingSubmissions(app: VirtualTryOnApp, person: FileInfo, clothing: FileInfo)
    returns (first: Option<TryOnRequest>, clickable: bool, second: Option<TryOnRequest>)
    requires app.Valid()
    requires Validate(person) == Accepted && Validate(clothing) == Accepted
    modifies app
    ensures first == second == Some(TryOnRequest(person, clothing))
    ensures clickable
  {
    app.HandleImageUpload(Some(person), Person);
    app.HandleImageUpload(Some(clothing), Clothing);
    first := app.StartSubmit();
    app.ResetForm();
    app.HandleImageUpload(Some(person), Person);
    app.HandleImageUpload(Some(clothing), Clothing);
    clickable := !app.buttonDisabled;
    second := app.StartSubmit();
  }

}
