/** Picking the coordinates of a place from a Nominatim search answer. */
module Geocode {
  import opened Wrappers
  import opened Geo

  /** One search candidate, after its `lat` and `lon` texts went through
      `parseFloat`. */
  datatype Candidate = Candidate(lat: real, lon: real)

  /** What a lookup through the proxy produced: the candidate list it parsed,
      or a failure of the fetch or of either JSON decoding. */
  datatype GeocodeResponse =
    | LookupFailed
    | Candidates(results: seq<Candidate>)

  /** `getCoordinates`: the first candidate when there is one, `null` when the
      list is empty or the lookup failed. Only the first candidate is used. */
  function GetCoordinates(response: GeocodeResponse): (r: Option<LatLng>)
    ensures r.Some? <==> response.Candidates? && |response.results| > 0
    ensures r.Some? ==> r.value == LatLng(response.results[0].lat, response.results[0].lon)
  {
    match response
    case LookupFailed => None
    case Candidates(results) =>
      if |results| > 0 then Some(LatLng(results[0].lat, results[0].lon)) else None
  }

  /** The candidates after the first never influence the answer. */
  lemma OnlyFirstCandidateMatters(first: Candidate, rest1: seq<Candidate>, rest2: seq<Candidate>)
    ensures GetCoordinates(Candidates([first] + rest1)) == GetCoordinates(Candidates([first] + rest2))
    ensures GetCoordinates(Candidates([first] + rest1)) == Some(LatLng(first.lat, first.lon))
  {
  }

  /** An empty answer gives no coordinates. */
  lemma NoCandidateNoPoint()
    ensures GetCoordinates(Candidates([])) == None
    ensures GetCoordinates(LookupFailed) == None
  {
  }
}
