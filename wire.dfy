/**
 * The page and the handler together: what the page sends becomes the handler's
 * request, and the handler's response becomes the outcome the page classifies.
 */
module Wire {
  import opened Wrappers
  import opened Text
  import Client
  import Server

  /** The multipart request the page posts, as the handler sees its parts. */
  function ToServer(r: Client.TryOnRequest): (req: Server.Request)
    ensures req.personImage.Some? && req.clothingImage.Some?
  {
    Server.Request(Some(Server.Part(r.personImage.name)), Some(Server.Part(r.clothingImage.name)))
  }

  /**
   * The handler's response as `fetch` and `response.json()` present it to the page:
   * `response.ok` is the 2xx test; a success body carries a true `success` and its
   * `result_image`, an error body only its `error`. For the statuses the handler
   * uses, `ok` holds exactly for a success body.
   */
  function ToClient(resp: Server.Response): (o: Client.Outcome)
    ensures o.Replied?
    ensures o.ok <==> 200 <= resp.status < 300
    ensures (resp.status in {200, 400, 500} && (resp.body.SuccessBody? <==> resp.status == 200)) ==>
      (o.ok <==> resp.body.SuccessBody?)
    ensures o.success == Some(true) <==> resp.body.SuccessBody?
    ensures Client.Present(o.resultImage) <==> resp.body.SuccessBody? && resp.body.resultImage != ""
    ensures Client.Present(o.error) <==> resp.body.ErrorBody? && resp.body.error != ""
  {
    var ok := 200 <= resp.status < 300;
    match resp.body
    case ErrorBody(e) => Client.Replied(ok, None, Some(e), None)
    case SuccessBody(img) => Client.Replied(ok, Some(true), None, Some(img))
  }

  /**
   * Whatever the foreign calls return, the page renders exactly the handler's
   * data URL when it succeeds, and otherwise shows the handler's own error text
   * behind the page's prefix (never the page's fallback message, since every error
   * body carries a non-empty message). A request from the page is never answered
   * with the missing-part error.
   */
  lemma EndToEnd(r: Client.TryOnRequest, ext: Server.Foreign)
    ensures var h := Server.VirtualTryOn(ToServer(r), ext);
      && h.response.body != Server.ErrorBody(Server.BOTH_REQUIRED)
      && Client.Classify(ToClient(h.response)) ==
           match h.response.body
           case SuccessBody(img) => Client.Render(img)
           case ErrorBody(e) => Client.Report(Client.FAILURE_PREFIX + e)
  {
    var h := Server.VirtualTryOn(ToServer(r), ext);
    var c := Client.Classify(ToClient(h.response));
    match h.response.body
    case SuccessBody(img) =>
      assert StartsWith(img, Server.DATA_URL_PREFIX);
    case ErrorBody(e) =>
      assert e[0] != Server.BOTH_REQUIRED[0];
      assert c.Report?;
      assert c.message[|Client.FAILURE_PREFIX|..] == e;
  }

  /**
   * When every guard passes, the page shows the first prediction's base64 text
   * behind `data:image/png;base64,`, exactly.
   */
  lemma ResultReachesPage(r: Client.TryOnRequest, ext: Server.Foreign)
    requires Server.AllChecksPass(ToServer(r), ext)
    ensures Client.Classify(ToClient(Server.VirtualTryOn(ToServer(r), ext).response)) ==
      Client.Render(Server.DATA_URL_PREFIX + ext.post.json.predictions.value[0].bytesBase64Encoded.value)
  {
    Server.SuccessExactly(ToServer(r), ext);
    EndToEnd(r, ext);
  }

}
