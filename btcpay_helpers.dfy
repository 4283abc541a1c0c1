/** lib/btcpay-helpers.ts: reading the store out of the configured server URL. */
module BtcpayHelpers {
  import opened Values
  import opened Text

  /** Where the Greenfield API lives and which store to use. */
  datatype ServerInfo = ServerInfo(baseUrl: string, storeId: string, fullStoreUrl: string)

  const StoresMarker := "/stores/"
  const DefaultStoreId := "current"

  /**
    `getBTCPayServerInfo()`, with `BTCPAY_SERVER_URL` passed in. A URL holding
    `/stores/` is split there: the text before the first occurrence is the base
    URL, and the store id is the first `/`-separated segment of the piece after it.
   */
  function GetServerInfo(configuredUrl: Option<string>): (info: ServerInfo)
    ensures info.fullStoreUrl == OrElse(configuredUrl, "")
  {
    var serverUrl := OrElse(configuredUrl, "");
    if Contains(serverUrl, StoresMarker) then
      var parts := Split(serverUrl, StoresMarker);
      var storeIdPath := parts[1];
      ServerInfo(parts[0], Split(storeIdPath, "/")[0], serverUrl)
    else
      ServerInfo(serverUrl, DefaultStoreId, serverUrl)
  }

  /** A URL without `/stores/` is the base URL itself, with the `current` store. */
  lemma ServerInfoWithoutStores(url: string)
    requires !Contains(url, StoresMarker)
    ensures GetServerInfo(Some(url)) == ServerInfo(url, DefaultStoreId, url)
  {
  }

  /** An unset server URL reads as the empty string. */
  lemma ServerInfoUnset()
    ensures GetServerInfo(None) == ServerInfo("", DefaultStoreId, "")
  {
    assert !OccursAt("", StoresMarker, 0);
  }

  /**
    With `/stores/` present, the base URL is the text before its first
    occurrence and the store id is the text after it up to the next `/`. (The
    source takes the piece between the first and second occurrences and then
    its first segment; both cut at the same place.)
   */
  lemma ServerInfoSplitsAtFirstStores(url: string)
    requires Contains(url, StoresMarker)
    ensures var i := FirstIndex(url, StoresMarker).value;
      GetServerInfo(Some(url)) == ServerInfo(url[..i], UpToSlash(url[i + |StoresMarker|..]), url)
  {
    var i := FirstIndex(url, StoresMarker).value;
    var rest := url[i + |StoresMarker|..];
    var parts := Split(url, StoresMarker);
    assert OrElse(Some(url), "") == url;
    assert parts[0] == url[..i] && parts[1] == Split(rest, StoresMarker)[0] by {
      SplitAtFirstOccurrence(url, StoresMarker, i);
    }
    assert Split(parts[1], "/")[0] == UpToSlash(rest) by {
      FirstPieceFirstSegment(rest, StoresMarker);
    }
  }

  /** The base URL never contains `/stores/`. */
  lemma BaseUrlHasNoStoresMarker(configuredUrl: Option<string>)
    ensures !Contains(GetServerInfo(configuredUrl).baseUrl, StoresMarker)
  {
    var url := OrElse(configuredUrl, "");
    if Contains(url, StoresMarker) {
      SplitFirstPiece(url, StoresMarker);
    }
  }

  /** The store id never contains `/`. */
  lemma StoreIdHasNoSlash(configuredUrl: Option<string>)
    ensures '/' !in GetServerInfo(configuredUrl).storeId
  {
    var url := OrElse(configuredUrl, "");
    if Contains(url, StoresMarker) {
      ServerInfoSplitsAtFirstStores(url);
    }
  }

  /** Base URL, marker and store id spell out the start of the configured URL. */
  lemma StoreUrlIsPrefix(url: string)
    requires Contains(url, StoresMarker)
    ensures var info := GetServerInfo(Some(url));
      info.baseUrl + StoresMarker + info.storeId <= url
  {
    ServerInfoSplitsAtFirstStores(url);
    SegmentAfterOccurrenceIsPrefix(url, StoresMarker, FirstIndex(url, StoresMarker).value);
  }

  /** The store id is empty exactly when `/stores/` ends the URL or is followed directly by `/`. */
  lemma StoreIdEmptyExactly(url: string)
    requires Contains(url, StoresMarker)
    ensures var rest := url[FirstIndex(url, StoresMarker).value + |StoresMarker|..];
      GetServerInfo(Some(url)).storeId == "" <==> rest == "" || rest[0] == '/'
  {
    ServerInfoSplitsAtFirstStores(url);
  }
}
