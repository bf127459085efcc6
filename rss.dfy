/**
 * The feed-fetch pipeline of `fetchFeed`: the HTTP round trip and the XML decoding are an
 * abstract `network` function from URL to parsed channel (or the error of the step that
 * failed); what is modelled is the entity-decoding pass over the parsed feed, which rewrites
 * the channel's and every item's Title and Description in place.  `html.UnescapeString` is
 * the uninterpreted parameter `unescape`.
 */
module Rss {
  import opened Wrappers

  datatype RSSItem = RSSItem(title: string, link: string, description: string, pubDate: string)

  /** The value of a parsed feed: the channel's text fields and its items in document order. */
  datatype Channel = Channel(title: string, link: string, description: string, items: seq<RSSItem>)

  /** The step of `fetchFeed` that failed: building the request, sending it, reading the body, unmarshaling. */
  datatype FetchError = RequestFailed | TransportFailed | ReadFailed | UnmarshalFailed

  type Response = Result<Channel, FetchError>

  /** The zero-valued feed `&RSSFeed{}` returned on every error path. */
  const EmptyChannel := Channel("", "", "", [])

  function DecodeItem(it: RSSItem, unescape: string -> string): (r: RSSItem)
    ensures r.title == unescape(it.title) && r.description == unescape(it.description)
    ensures r.link == it.link && r.pubDate == it.pubDate
  {
    it.(title := unescape(it.title), description := unescape(it.description))
  }

  /** Every item decoded, in the original order. */
  function DecodeItems(items: seq<RSSItem>, unescape: string -> string): seq<RSSItem> {
    if items == [] then [] else [DecodeItem(items[0], unescape)] + DecodeItems(items[1..], unescape)
  }

  lemma {:induction false} DecodeItemsAt(items: seq<RSSItem>, unescape: string -> string, k: nat)
    requires k < |items|
    ensures |DecodeItems(items, unescape)| == |items|
    ensures DecodeItems(items, unescape)[k] == DecodeItem(items[k], unescape)
  {
    if k > 0 {
      DecodeItemsAt(items[1..], unescape, k - 1);
    } else if |items| > 1 {
      DecodeItemsAt(items[1..], unescape, 0);
    }
  }

  lemma {:induction false} DecodeItemsLength(items: seq<RSSItem>, unescape: string -> string)
    ensures |DecodeItems(items, unescape)| == |items|
  {
    if items != [] {
      DecodeItemsLength(items[1..], unescape);
    }
  }

  /** The decode pass as a function of the parsed channel. */
  function DecodeChannel(c: Channel, unescape: string -> string): (r: Channel)
    ensures r.title == unescape(c.title) && r.description == unescape(c.description)
    ensures r.link == c.link
    ensures |r.items| == |c.items|
    ensures forall k :: 0 <= k < |c.items| ==> r.items[k] == DecodeItem(c.items[k], unescape)
  {
    DecodeItemsLength(c.items, unescape);
    forall k | 0 <= k < |c.items| ensures DecodeItems(c.items, unescape)[k] == DecodeItem(c.items[k], unescape) {
      DecodeItemsAt(c.items, unescape, k);
    }
    Channel(unescape(c.title), c.link, unescape(c.description), DecodeItems(c.items, unescape))
  }

  /** The Go `RSSFeed` after unmarshaling; its item slice is updated element by element. */
  class RSSFeed {
    var title: string
    var link: string
    var description: string
    var item: array<RSSItem>

    function Value(): Channel
      reads this, item
    {
      Channel(title, link, description, item[..])
    }

    /** The feed `xml.Unmarshal` fills in from a parsed document. */
    constructor (c: Channel)
      ensures Value() == c && fresh(item)
    {
      title, link, description := c.title, c.link, c.description;
      item := new RSSItem[|c.items|](i requires 0 <= i < |c.items| => c.items[i]);
    }
  }

  /** Replaces the channel's and each item's Title and Description by their decoded form, in place. */
  method DecodeEntities(rss: RSSFeed, unescape: string -> string)
    modifies rss, rss.item
    ensures rss.item == old(rss.item)
    ensures rss.title == unescape(old(rss.title)) && rss.description == unescape(old(rss.description))
    ensures rss.link == old(rss.link)
    ensures forall k :: 0 <= k < rss.item.Length ==>
      rss.item[k].title == unescape(old(rss.item[k].title)) &&
      rss.item[k].description == unescape(old(rss.item[k].description)) &&
      rss.item[k].link == old(rss.item[k].link) &&
      rss.item[k].pubDate == old(rss.item[k].pubDate)
    ensures rss.Value() == DecodeChannel(old(rss.Value()), unescape)
  {
    rss.title := unescape(rss.title);
    rss.description := unescape(rss.description);
    var items := rss.item;
    var i := 0;
    while i < items.Length
      invariant 0 <= i <= items.Length
      invariant rss.item == items
      invariant rss.title == unescape(old(rss.title)) && rss.description == unescape(old(rss.description))
      invariant rss.link == old(rss.link)
      invariant forall k :: 0 <= k < i ==> items[k] == DecodeItem(old(items[k]), unescape)
      invariant forall k :: i <= k < items.Length ==> items[k] == old(items[k])
    {
      items[i] := items[i].(title := unescape(items[i].title));
      items[i] := items[i].(description := unescape(items[i].description));
      i := i + 1;
    }
    ghost var was := old(items[..]);
    DecodeItemsLength(was, unescape);
    forall k | 0 <= k < items.Length ensures items[..][k] == DecodeItems(was, unescape)[k] {
      DecodeItemsAt(was, unescape, k);
    }
  }

  /**
   * `fetchFeed(ctx, feedURL)`: `network(feedURL)` is the outcome of the request, the body read
   * and the unmarshaling; on success the parsed feed is decoded in place and returned.
   * The error line `fetchFeed` prints on each failure is appended to the output by its caller, `HandlerAgg`.
   */
  method FetchFeed(feedURL: string, network: string -> Response, unescape: string -> string)
    returns (rss: RSSFeed, err: Option<FetchError>)
    ensures fresh(rss) && fresh(rss.item)
    ensures network(feedURL).Err? ==> err == Some(network(feedURL).error) && rss.Value() == EmptyChannel
    ensures network(feedURL).Ok? ==> err == None && rss.Value() == DecodeChannel(network(feedURL).value, unescape)
  {
    match network(feedURL)
    case Err(e) =>
      rss := new RSSFeed(EmptyChannel);
      err := Some(e);
    case Ok(c) =>
      rss := new RSSFeed(c);
      DecodeEntities(rss, unescape);
      err := None;
  }
}
