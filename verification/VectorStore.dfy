/** The vector store as a map of points, and subtree removal across scroll pages. */
module VectorStore {
  import opened Strings

  /** The payload fields the session flow and the removal look at. */
  datatype Payload = Payload(
    uri: string,
    parentUri: string,
    sourceUri: string,
    metaSourceUri: string,
    metaTreeUri: string,
    layer: string,
    metaSourceUris: seq<string>,
    content: string)

  type Points = map<string, Payload>

  predicate Under(value: string, uri: string) {
    value == uri || StartsWith(value, if EndsWith(uri, '/') then uri else uri + "/")
  }

  function LinkFields(p: Payload): seq<string> {
    [p.uri, p.sourceUri, p.parentUri, p.metaSourceUri, p.metaTreeUri]
  }

  predicate PayloadMatchesUri(p: Payload, uri: string) {
    exists v :: v in LinkFields(p) && Under(v, uri)
  }

  function TrimSlash(uri: string): string {
    if EndsWith(uri, '/') then uri[..|uri| - 1] else uri
  }

  /** `Under` is the path order: equal, or a proper extension by whole path segments. A
      sibling whose name merely starts with the same letters is never under `uri`. */
  lemma UnderIsSegmentPrefix(value: string, uri: string)
    ensures Under(value, uri)
            <==> value == uri || Segments(TrimSlash(uri), '/') < Segments(value, '/')
  {
    var base := TrimSlash(uri);
    var prefix := if EndsWith(uri, '/') then uri else uri + "/";
    assert prefix == base + ['/'];
    if StartsWith(value, prefix) {
      var rest := value[|prefix|..];
      assert value == base + ['/'] + rest;
      SegmentsConcat(base, rest, '/');
    }
    if Segments(base, '/') < Segments(value, '/') {
      SegmentsPrefix(base, value, '/');
    }
  }

  /** The points that survive a removal. */
  function Remove(points: Points, uri: string): Points {
    map id | id in points && !PayloadMatchesUri(points[id], uri) :: points[id]
  }

  /** The ids the first `k` scroll pages list. */
  function Listed(pages: seq<seq<string>>, k: nat): set<string>
    requires k <= |pages|
  {
    set i, j | 0 <= i < k && 0 <= j < |pages[i]| :: pages[i][j]
  }

  lemma ListedGrows(pages: seq<seq<string>>, k: nat)
    requires k < |pages|
    ensures Listed(pages, k + 1) == Listed(pages, k) + set id | id in pages[k]
    ensures forall id :: id in pages[k] ==> id in Listed(pages, |pages|)
  {
    forall id | id in pages[k] ensures id in Listed(pages, |pages|) && id in Listed(pages, k + 1) {
      var j :| 0 <= j < |pages[k]| && pages[k][j] == id;
    }
  }

  class QdrantVectorStore {
    var points: Points

    constructor ()
      ensures points == map[]
    {
      points := map[];
    }

    method Upsert(p: Payload)
      modifies this
      ensures points == old(points)[p.uri := p]
    {
      points := points[p.uri := p];
    }

    /** The ids on one page whose payload matches. */
    method Matching(page: seq<string>, uri: string) returns (ids: seq<string>)
      requires forall id :: id in page ==> id in points
      ensures forall id :: id in ids <==> id in page && PayloadMatchesUri(points[id], uri)
    {
      ids := [];
      for j := 0 to |page|
        invariant forall id :: id in ids <==> id in page[..j] && PayloadMatchesUri(points[id], uri)
      {
        assert page[..j + 1] == page[..j] + [page[j]] && page[j] in page;
        if PayloadMatchesUri(points[page[j]], uri) {
          ids := ids + [page[j]];
        }
      }
      assert page[..|page|] == page;
    }

    /** Scroll every page, collect the matching ids, delete them in one call. `pages` is
        what the server returns for the scroll filter, in any split. */
    method RemoveByUri(uri: string, pages: seq<seq<string>>) returns (removed: bool)
      requires pages != [] && Listed(pages, |pages|) <= points.Keys
      modifies this
      ensures forall id :: id in points
                <==> id in old(points)
                     && !(id in Listed(pages, |pages|) && PayloadMatchesUri(old(points)[id], uri))
      ensures forall id :: id in points ==> points[id] == old(points)[id]
      ensures Listed(pages, |pages|) == old(points).Keys ==> points == Remove(old(points), uri)
      ensures removed <==> points != old(points)
    {
      var pointIds: seq<string> := [];
      var offset := 0;
      while offset < |pages|
        invariant offset <= |pages| && points == old(points)
        invariant forall id :: id in pointIds
                    <==> id in Listed(pages, offset) && PayloadMatchesUri(points[id], uri)
      {
        ListedGrows(pages, offset);
        var matching := Matching(pages[offset], uri);
        pointIds := pointIds + matching;
        offset := offset + 1;
      }
      if pointIds == [] {
        return false;
      }
      assert pointIds[0] in pointIds && pointIds[0] in points;
      points := points - set id | id in pointIds;
      return true;
    }
  }
}
