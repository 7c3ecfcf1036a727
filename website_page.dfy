/**
 * The website page of the knowledge base (client/src/pages/website.tsx):
 * an address, a protocol and crawl options become one "website" document.
 */
module WebsitePage {
  import opened Wrappers
  import opened Strings
  import opened Knowledge

  /** `${protocol}://${url}`: the address as shown and stored. */
  function FullUrl(protocol: string, url: string): (u: string)
    ensures |u| == |protocol| + 3 + |url|
  {
    protocol + "://" + url
  }

  /** The full address is the protocol, `://` and the address as typed, in that order. */
  lemma FullUrlParts(protocol: string, url: string)
    ensures var u := FullUrl(protocol, url);
      u[..|protocol|] == protocol && u[|protocol|..|protocol| + 3] == "://" && u[|protocol| + 3..] == url
  {
  }

  /** The creation request `handleFetchLinks` sends. */
  function WebRecord(assistantId: int, protocol: string, url: string, includePaths: string,
                     excludePaths: string, slowScraping: bool, now: int): (d: NewDocument)
    ensures d.assistantId == assistantId && d.sourceType == WebsiteType
    ensures d.title == FullUrl(protocol, url)
    ensures d.content == Some("Website content from " + d.title)
    ensures d.metadata.Some? && d.metadata.value.url == Some(d.title)
    ensures d.metadata.value.includePaths == Some(includePaths) && d.metadata.value.excludePaths == Some(excludePaths)
    ensures d.metadata.value.slowScraping == Some(slowScraping) && d.metadata.value.size.None?
  {
    var address := FullUrl(protocol, url);
    NewDocument(assistantId, address, Some("Website content from " + address), WebsiteType, "web-" + IntToString(now),
                Some(NoMetadata.(url := Some(address), includePaths := Some(includePaths),
                                 excludePaths := Some(excludePaths), slowScraping := Some(slowScraping))))
  }

  /** `webDocuments`: the website entries, in list order. */
  function WebDocuments(documents: Option<seq<Document>>): (r: seq<Document>)
    ensures forall d :: d in r <==> documents.Some? && d in documents.value && d.sourceType == WebsiteType
  {
    ListedOfType(documents, WebsiteType)
  }

  /** `filteredDocs`: the website entries whose title contains the search text, ignoring case. */
  function FilteredWebs(documents: Option<seq<Document>>, query: string): (r: seq<Document>)
    ensures forall d :: d in r ==> d in WebDocuments(documents)
    ensures forall d :: d in r <==> d in WebDocuments(documents) && TitleMatches(d, query)
  {
    TitleFilter(WebDocuments(documents), query)
  }

  /**
   * A stored website entry is listed, and is found by a search for the
   * address it was entered with (the part after the protocol). It has no
   * size, so the storage total does not move.
   */
  lemma StoredSiteIsFound(docs: seq<Document>, assistantId: int, protocol: string, url: string,
                          includePaths: string, excludePaths: string, slowScraping: bool, now: int, id: int)
    ensures Store(WebRecord(assistantId, protocol, url, includePaths, excludePaths, slowScraping, now), id)
         in FilteredWebs(Some([Store(WebRecord(assistantId, protocol, url, includePaths, excludePaths, slowScraping, now), id)] + docs), url)
    ensures StorageUsed(Some([Store(WebRecord(assistantId, protocol, url, includePaths, excludePaths, slowScraping, now), id)] + docs))
         == StorageUsed(Some(docs))
  {
    var d := Store(WebRecord(assistantId, protocol, url, includePaths, excludePaths, slowScraping, now), id);
    assert d in [d] + docs;
    FullUrlParts(protocol, url);
    var k := |protocol| + 3;
    var t := ToLower(d.title);
    assert t[k..k + |url|] == ToLower(url) by {
      forall i | 0 <= i < |url| ensures t[k..k + |url|][i] == ToLower(url)[i] {
        assert d.title[k + i] == url[i];
      }
    }
    assert OccursAt(t, ToLower(url), k);
    ContainsIff(ToLower(d.title), ToLower(url));
    StoringAddsItsSize(docs, d);
  }

  /** The website form and the requests it has sent. */
  class WebsitePageState {
    const assistantId: int
    var url: string
    var protocol: string
    var includePaths: string
    var excludePaths: string
    var slowScraping: bool
    /** The creation requests sent so far, oldest first. */
    var created: seq<NewDocument>

    constructor (assistantId: int)
      ensures this.assistantId == assistantId && url == "" && protocol == "https"
      ensures includePaths == "" && excludePaths == "" && !slowScraping && created == []
    {
      this.assistantId := assistantId;
      url, protocol := "", "https";
      includePaths, excludePaths, slowScraping := "", "", false;
      created := [];
    }

    /**
     * `handleFetchLinks`: a blank address does nothing; otherwise the
     * request is sent with the address as typed, and once it is accepted
     * only the address field is cleared.
     */
    method HandleFetchLinks(now: int, accepted: bool)
      modifies this`url, this`created
      ensures IsBlank(old(url)) ==> url == old(url) && created == old(created)
      ensures !IsBlank(old(url)) ==>
        created == old(created) + [WebRecord(assistantId, protocol, old(url), includePaths, excludePaths, slowScraping, now)]
      ensures !IsBlank(old(url)) && accepted ==> url == ""
      ensures !accepted ==> url == old(url)
    {
      if Trim(url) == "" {
        return;
      }
      var record := WebRecord(assistantId, protocol, url, includePaths, excludePaths, slowScraping, now);
      created := created + [record];
      if accepted {
        url := "";
      }
    }
  }
}
