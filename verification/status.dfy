/** Displayed status of a campaign or ad set, its mapping from the backend's
    status string, and the status the Pause/Resume button requests. */
module EntityStatus {
  import Seqs

  datatype Status = Active | Paused

  /** The status column as displayed (and searched). */
  function Label(s: Status): (name: string)
    ensures name == "Paused" <==> s == Paused
    ensures name == "Active" <==> s == Active
  {
    match s
    case Active => "Active"
    case Paused => "Paused"
  }

  /** `"PAUSED"` is shown as Paused; every other backend string as Active. */
  function FromBackend(raw: string): (s: Status)
    ensures s == Paused <==> raw == "PAUSED"
  {
    if raw == "PAUSED" then Paused else Active
  }

  /** The status the Pause/Resume button asks the backend to set. Read back
      through `FromBackend`, it is always the opposite of what is shown. */
  function NextStatus(shown: Status): (req: string)
    ensures req == "ACTIVE" || req == "PAUSED"
    ensures FromBackend(req) != shown
  {
    if shown == Paused then "ACTIVE" else "PAUSED"
  }

  /** The button's caption: it names the action `NextStatus` requests. */
  function ButtonCaption(shown: Status): (caption: string)
    ensures caption == "Resume" <==> NextStatus(shown) == "ACTIVE"
    ensures caption == "Pause" <==> NextStatus(shown) == "PAUSED"
  {
    if shown == Paused then "Resume" else "Pause"
  }

  /** Pressing the button twice, each time after the reload has picked up the
      backend's new status, restores the original status. */
  lemma ToggleTwiceRestores(shown: Status)
    ensures FromBackend(NextStatus(FromBackend(NextStatus(shown)))) == shown
  {
  }

  /** The row kinds the details panel can hold; the page tells them apart
      by whether the row has a `campaign` field. */
  datatype Kind = CampaignKind | AdSetKind

  /** The status request the button sends: `POST /<kind>/<id>/status`. */
  datatype StatusRequest = StatusRequest(kind: Kind, id: string, status: string)

  function ToggleRequest(kind: Kind, id: string, shown: Status): (req: StatusRequest)
    ensures req.kind == kind && req.id == id
    ensures FromBackend(req.status) != shown
  {
    StatusRequest(kind, id, NextStatus(shown))
  }

  /** The backend the page talks to. */
  const BaseUrl: string := "http://127.0.0.1:5000"

  /** The URL the request is posted to: the collection named by the row's
      kind, then the row's id, then `/status`. */
  function Endpoint(req: StatusRequest): (url: string)
    ensures Seqs.IsPrefix(BaseUrl + "/campaigns/", url) <==> req.kind == CampaignKind
    ensures req.kind == AdSetKind ==> Seqs.IsPrefix(BaseUrl + "/adsets/", url)
    ensures |url| == |BaseUrl| + (if req.kind == CampaignKind then 11 else 8) + |req.id| + 7
    ensures |url| >= |req.id| + 7 && url[|url| - |req.id| - 7..] == req.id + "/status"
  {
    match req.kind
    case CampaignKind => BaseUrl + "/campaigns/" + req.id + "/status"
    case AdSetKind =>
      var url := BaseUrl + "/adsets/" + req.id + "/status";
      assert url[|BaseUrl| + 1] == 'a';
      url
  }

  /** Different requests go to different URLs: the URL determines the row's
      kind and id. */
  lemma EndpointIdentifiesRow(a: StatusRequest, b: StatusRequest)
    requires Endpoint(a) == Endpoint(b)
    ensures a.kind == b.kind && a.id == b.id
  {
    var url := Endpoint(a);
    var prefix := if a.kind == CampaignKind then BaseUrl + "/campaigns/" else BaseUrl + "/adsets/";
    assert url == prefix + a.id + "/status";
    assert url == prefix + b.id + "/status";
    assert a.id == url[|prefix|..|url| - 7];
  }
}
