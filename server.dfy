/**
 * The `/virtual-tryon` handler of tryon.py: a ladder of guards that turns the
 * uploaded parts and the results of its foreign calls (image processing, the
 * access token, the prediction request and the parsing of its reply) into a status
 * and a JSON body. The foreign results are inputs; the handler also reports which
 * foreign calls it made, in order, so that the check order can be stated.
 */
module Server {
  import opened Wrappers
  import opened Text

  newtype byte = x: int | 0 <= x < 256

  const PROJECT_ID := "styleu-469219"
  const LOCATION := "us-central1"
  const MODEL_NAME := "virtual-try-on-preview-08-04"
  const PREDICT_URL := "https://" + LOCATION + "-aiplatform.googleapis.com/v1/projects/" + PROJECT_ID
    + "/locations/" + LOCATION + "/publishers/google/models/" + MODEL_NAME + ":predict"
  const DATA_URL_PREFIX := "data:image/png;base64,"

  const BOTH_REQUIRED := "Both person and clothing images are required"
  const NO_FILES_SELECTED := "No files selected"
  const PROCESS_FAILED := "Failed to process images"
  const TOKEN_FAILED := "Failed to get authentication token"
  const API_FAILED_PREFIX := "API request failed: "
  const NO_PREDICTIONS := "No predictions in API response"
  const NO_IMAGE_DATA := "No image data in API response"
  const EXCEPTION_PREFIX := "Virtual try-on failed: "

  /** An uploaded file part; only its file name is looked at before processing. */
  datatype Part = Part(filename: string)

  /** The `person_image` and `clothing_image` parts of the multipart request, if present. */
  datatype Request = Request(personImage: Option<Part>, clothingImage: Option<Part>)

  /** One entry of the `predictions` list of the model's reply. */
  datatype Prediction = Prediction(bytesBase64Encoded: Option<string>)

  /** `response.json()`: it raises, or yields the `predictions` field if there is one. */
  datatype Parsed = JsonRaised(message: string) | Json(predictions: Option<seq<Prediction>>)

  /** `requests.post`: it raises, or returns a status code, a body text and its parse. */
  datatype PostResult = PostRaised(message: string) | Returned(statusCode: nat, text: string, json: Parsed)

  /**
   * What the foreign calls give back: `process_image` of each part (None when it
   * failed), `get_access_token()` (None when it failed), and the prediction request.
   */
  datatype Foreign = Foreign(
    processedPerson: Option<seq<byte>>,
    processedClothing: Option<seq<byte>>,
    accessToken: Option<string>,
    post: PostResult)

  /** The prediction request's JSON payload: instances with a person image and product images. */
  datatype Instance = Instance(personImage: seq<byte>, productImages: seq<seq<byte>>)
  datatype Payload = Payload(instances: seq<Instance>, sampleCount: nat)

  datatype Call =
    | ProcessImage(part: Part)
    | GetAccessToken
    | PostPredict(url: string, authorization: string, payload: Payload)

  datatype Body = ErrorBody(error: string) | SuccessBody(resultImage: string)
  datatype Response = Response(body: Body, status: nat)
  datatype Handled = Handled(response: Response, calls: seq<Call>)

  /** Python truthiness of an optional byte string or string: present and non-empty. */
  predicate HasBytes(b: Option<seq<byte>>)
  {
    b.Some? && b.value != []
  }

  predicate HasText(s: Option<string>)
  {
    s.Some? && s.value != ""
  }

  function Fail(status: nat, message: string, calls: seq<Call>): Handled
  {
    Handled(Response(ErrorBody(message), status), calls)
  }

  /** The error message for an upstream status other than 200. */
  function ApiFailure(statusCode: nat, text: string): string
  {
    API_FAILED_PREFIX + Decimal(statusCode) + " - " + text
  }

  /**
   * `virtual_tryon`. Every response is 200 with a success body, or 400 or 500 with
   * a non-empty error; 400 answers exactly the requests turned away before a token
   * is asked for; a success body is a PNG data URL.
   */
  function VirtualTryOn(req: Request, ext: Foreign): (h: Handled)
    ensures h.response.body.SuccessBody? <==> h.response.status == 200
    ensures h.response.status in {200, 400, 500}
    ensures h.response.body.ErrorBody? ==> h.response.body.error != ""
    ensures h.response.status == 400 <==> GetAccessToken !in h.calls
    ensures h.response.body.SuccessBody? ==> StartsWith(h.response.body.resultImage, DATA_URL_PREFIX)
  {
    if req.personImage.None? || req.clothingImage.None? then
      Fail(400, BOTH_REQUIRED, [])
    else if req.personImage.value.filename == "" || req.clothingImage.value.filename == "" then
      Fail(400, NO_FILES_SELECTED, [])
    else
      var processed := [ProcessImage(req.personImage.value), ProcessImage(req.clothingImage.value)];
      if !HasBytes(ext.processedPerson) || !HasBytes(ext.processedClothing) then
        Fail(400, PROCESS_FAILED, processed)
      else if !HasText(ext.accessToken) then
        Fail(500, TOKEN_FAILED, processed + [GetAccessToken])
      else
        var payload := Payload([Instance(ext.processedPerson.value, [ext.processedClothing.value])], 1);
        var calls := processed + [GetAccessToken, PostPredict(PREDICT_URL, "Bearer " + ext.accessToken.value, payload)];
        match ext.post
        case PostRaised(e) => Fail(500, EXCEPTION_PREFIX + e, calls)
        case Returned(statusCode, text, json) =>
          if statusCode != 200 then Fail(500, ApiFailure(statusCode, text), calls)
          else match json
            case JsonRaised(e) => Fail(500, EXCEPTION_PREFIX + e, calls)
            case Json(predictions) =>
              if predictions.None? || predictions.value == [] then Fail(500, NO_PREDICTIONS, calls)
              else if predictions.value[0].bytesBase64Encoded.None? then Fail(500, NO_IMAGE_DATA, calls)
              else Handled(Response(SuccessBody(DATA_URL_PREFIX + predictions.value[0].bytesBase64Encoded.value), 200), calls)
  }

  /** Every guard, stated at once: the conditions under which the handler succeeds. */
  predicate AllChecksPass(req: Request, ext: Foreign)
  {
    && req.personImage.Some? && req.clothingImage.Some?
    && req.personImage.value.filename != "" && req.clothingImage.value.filename != ""
    && HasBytes(ext.processedPerson) && HasBytes(ext.processedClothing)
    && HasText(ext.accessToken)
    && ext.post.Returned? && ext.post.statusCode == 200
    && ext.post.json.Json? && ext.post.json.predictions.Some? && ext.post.json.predictions.value != []
    && ext.post.json.predictions.value[0].bytesBase64Encoded.Some?
  }

  /**
   * The handler succeeds exactly when every guard passes. Then it has processed
   * both images, asked for one token and posted one request carrying one instance
   * with one product image and a sample count of 1, and its result is the first
   * prediction's base64 text behind the data URL prefix, verbatim.
   */
  lemma SuccessExactly(req: Request, ext: Foreign)
    ensures VirtualTryOn(req, ext).response.body.SuccessBody? <==> AllChecksPass(req, ext)
    ensures AllChecksPass(req, ext) ==>
      var h := VirtualTryOn(req, ext);
      && h.calls == [ProcessImage(req.personImage.value), ProcessImage(req.clothingImage.value), GetAccessToken,
                     PostPredict(PREDICT_URL, "Bearer " + ext.accessToken.value,
                                 Payload([Instance(ext.processedPerson.value, [ext.processedClothing.value])], 1))]
      && h.response.body.resultImage == DATA_URL_PREFIX + ext.post.json.predictions.value[0].bytesBase64Encoded.value
  {
    var h := VirtualTryOn(req, ext);
    if h.response.body.SuccessBody? {
      assert GetAccessToken in h.calls;
      assert HasBytes(ext.processedPerson) && HasBytes(ext.processedClothing) && HasText(ext.accessToken);
      assert ext.post.Returned? && ext.post.statusCode == 200;
    }
  }

  /** A missing part is reported before anything else is looked at, and nothing is called. */
  lemma MissingPartFirst(req: Request, ext: Foreign)
    requires req.personImage.None? || req.clothingImage.None?
    ensures VirtualTryOn(req, ext) == Fail(400, BOTH_REQUIRED, [])
  {
  }

  /** An empty file name is reported after presence and before any image is processed. */
  lemma EmptyFilenameSecond(req: Request, ext: Foreign)
    requires req.personImage.Some? && req.clothingImage.Some?
    requires req.personImage.value.filename == "" || req.clothingImage.value.filename == ""
    ensures VirtualTryOn(req, ext) == Fail(400, NO_FILES_SELECTED, [])
  {
  }

  /**
   * With both parts named, both images are processed before either result is
   * checked, and an empty or failed result gives 400 before the token is asked for.
   */
  lemma ProcessFailureThird(req: Request, ext: Foreign)
    requires req.personImage.Some? && req.clothingImage.Some?
    requires req.personImage.value.filename != "" && req.clothingImage.value.filename != ""
    requires !HasBytes(ext.processedPerson) || !HasBytes(ext.processedClothing)
    ensures VirtualTryOn(req, ext) ==
      Fail(400, PROCESS_FAILED, [ProcessImage(req.personImage.value), ProcessImage(req.clothingImage.value)])
  {
  }

  /** With both images processed, a missing or empty token gives 500 before any request is made. */
  lemma TokenFailureFourth(req: Request, ext: Foreign)
    requires req.personImage.Some? && req.clothingImage.Some?
    requires req.personImage.value.filename != "" && req.clothingImage.value.filename != ""
    requires HasBytes(ext.processedPerson) && HasBytes(ext.processedClothing)
    requires !HasText(ext.accessToken)
    ensures VirtualTryOn(req, ext) ==
      Fail(500, TOKEN_FAILED, [ProcessImage(req.personImage.value), ProcessImage(req.clothingImage.value), GetAccessToken])
  {
  }

  /** Every guard up to the request passes and the upstream status is 200. */
  predicate ReachesReply(req: Request, ext: Foreign)
  {
    && req.personImage.Some? && req.clothingImage.Some?
    && req.personImage.value.filename != "" && req.clothingImage.value.filename != ""
    && HasBytes(ext.processedPerson) && HasBytes(ext.processedClothing) && HasText(ext.accessToken)
    && ext.post.Returned? && ext.post.statusCode == 200
  }

  /** A parsed reply without predictions, or with an empty list of them, gives 500. */
  lemma NoPredictions(req: Request, ext: Foreign)
    requires ReachesReply(req, ext)
    requires ext.post.json == Json(None) || ext.post.json == Json(Some([]))
    ensures VirtualTryOn(req, ext).response == Response(ErrorBody(NO_PREDICTIONS), 500)
  {
  }

  /** A first prediction without `bytesBase64Encoded` gives 500, whatever follows it. */
  lemma NoImageData(req: Request, ext: Foreign)
    requires ReachesReply(req, ext)
    requires ext.post.json.Json? && ext.post.json.predictions.Some? && ext.post.json.predictions.value != []
    requires ext.post.json.predictions.value[0].bytesBase64Encoded.None?
    ensures VirtualTryOn(req, ext).response == Response(ErrorBody(NO_IMAGE_DATA), 500)
  {
  }

  /**
   * Both images are processed before either result is checked, and the token is
   * asked for only when both results are non-empty; the prediction request is made
   * at most once, and only with a non-empty token.
   */
  lemma ForeignCallsInOrder(req: Request, ext: Foreign)
    ensures var h := VirtualTryOn(req, ext);
      && (h.calls != [] ==> |h.calls| >= 2 && h.calls[0] == ProcessImage(req.personImage.value)
                                           && h.calls[1] == ProcessImage(req.clothingImage.value))
      && (GetAccessToken in h.calls ==> HasBytes(ext.processedPerson) && HasBytes(ext.processedClothing))
      && (forall i :: 0 <= i < |h.calls| && h.calls[i].PostPredict? ==>
            i == 3 && h.calls[i].authorization == "Bearer " + ext.accessToken.value && HasText(ext.accessToken))
  {
  }

  /**
   * An upstream status other than 200 gives a 500 whose message starts with the
   * API failure prefix and the status, which reads back from the message.
   */
  lemma UpstreamStatusReported(req: Request, ext: Foreign)
    requires req.personImage.Some? && req.clothingImage.Some?
    requires req.personImage.value.filename != "" && req.clothingImage.value.filename != ""
    requires HasBytes(ext.processedPerson) && HasBytes(ext.processedClothing) && HasText(ext.accessToken)
    requires ext.post.Returned? && ext.post.statusCode != 200
    ensures var h := VirtualTryOn(req, ext);
      && h.response.status == 500
      && h.response.body == ErrorBody(ApiFailure(ext.post.statusCode, ext.post.text))
      && StartsWith(h.response.body.error, API_FAILED_PREFIX)
      && ReadNumber(h.response.body.error[|API_FAILED_PREFIX|..]) == ext.post.statusCode
  {
    var m := ApiFailure(ext.post.statusCode, ext.post.text);
    assert m[|API_FAILED_PREFIX|..] == Decimal(ext.post.statusCode) + (" - " + ext.post.text);
    ReadDecimal(ext.post.statusCode, " - " + ext.post.text);
  }

  /** Only the first prediction is consulted: what follows it never changes the response. */
  lemma OnlyFirstPrediction(req: Request, ext: Foreign, first: Prediction, rest: seq<Prediction>, rest': seq<Prediction>)
    requires ext.post.Returned? && ext.post.json == Json(Some([first] + rest))
    ensures VirtualTryOn(req, ext) == VirtualTryOn(req, ext.(post := ext.post.(json := Json(Some([first] + rest')))))
  {
  }

  /** A raised exception is answered with 500 and its text behind the exception prefix. */
  lemma ExceptionsAnswered(req: Request, ext: Foreign)
    requires req.personImage.Some? && req.clothingImage.Some?
    requires req.personImage.value.filename != "" && req.clothingImage.value.filename != ""
    requires HasBytes(ext.processedPerson) && HasBytes(ext.processedClothing) && HasText(ext.accessToken)
    ensures ext.post.PostRaised? ==>
      VirtualTryOn(req, ext).response == Response(ErrorBody(EXCEPTION_PREFIX + ext.post.message), 500)
    ensures ext.post.Returned? && ext.post.statusCode == 200 && ext.post.json.JsonRaised? ==>
      VirtualTryOn(req, ext).response == Response(ErrorBody(EXCEPTION_PREFIX + ext.post.json.message), 500)
  {
  }

}
