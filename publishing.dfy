/** Creating the post on the blog host: the request the script sends to the
    WordPress.com REST API once a post has been generated. The HTTP call itself
    and the clock are not modelled: the method returns the request it would
    send, and "now" is an input. */
module Publishing {
  import opened Wrappers
  import opened Settings
  import opened Generation

  const ApiBase := "https://public-api.wordpress.com/rest/v1.1/sites/"
  const FutureMode := "future"
  const PublishStatus := "publish"
  const FutureStatus := "future"

  /** A value of the form-encoded payload: text, or the local time (in seconds
      since a fixed origin) that the script renders with `isoformat()`. */
  datatype FormValue = FormText(s: string) | LocalTime(seconds: int)

  /** The `requests.post` the script makes: target URL, `Authorization` header
      and form payload. */
  datatype CreateRequest = CreateRequest(url: string, authorization: string, form: map<string, FormValue>)

  datatype PublishError = MissingSiteId

  /** Builds the post-creation request. Without a site id it fails before
      anything is sent. In future mode the post is scheduled `futureMinutes`
      minutes after `nowSeconds` and the payload carries that date; in any
      other mode it is published at once and the payload has no date. */
  method WpcomCreatePost(cfg: Config, token: string, post: GeneratedPost, nowSeconds: int)
    returns (r: Result<CreateRequest, PublishError>)
    ensures cfg.siteId == "" <==> r == Err(MissingSiteId)
    ensures r.Ok? ==>
      && r.value.url == ApiBase + cfg.siteId + "/posts/new"
      && r.value.authorization == "Bearer " + token
    ensures r.Ok? ==>
      var form := r.value.form;
      && "title" in form && form["title"] == FormText(post.title)
      && "content" in form && form["content"] == FormText(post.html)
      && "excerpt" in form && form["excerpt"] == FormText(post.excerpt)
      && "categories" in form && form["categories"] == FormText(post.category)
      && "status" in form
      && (form["status"] == FormText(FutureStatus) <==> cfg.postMode == FutureMode)
      && (form["status"] == FormText(PublishStatus) <==> cfg.postMode != FutureMode)
      && ("date" in form <==> cfg.postMode == FutureMode)
      && ("date" in form ==> form["date"] == LocalTime(nowSeconds + 60 * cfg.futureMinutes))
      && (forall k :: k in form ==> k in {"title", "content", "excerpt", "status", "categories", "date"})
  {
    if cfg.siteId == "" {
      return Err(MissingSiteId);
    }
    var url := ApiBase + cfg.siteId + "/posts/new";
    var authorization := "Bearer " + token;

    var status := PublishStatus;
    var isoDate: Option<FormValue> := None;
    if cfg.postMode == FutureMode {
      status := FutureStatus;
      isoDate := Some(LocalTime(nowSeconds + 60 * cfg.futureMinutes));
    } else {
      status := PublishStatus;
      isoDate := None;
    }

    var payload := map[
      "title" := FormText(post.title),
      "content" := FormText(post.html),
      "excerpt" := FormText(post.excerpt),
      "status" := FormText(status),
      "categories" := FormText(post.category)];
    if isoDate.Some? {
      payload := payload["date" := isoDate.value];
    }
    return Ok(CreateRequest(url, authorization, payload));
  }
}
