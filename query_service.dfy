/**
 * The request-shaping part of `QueryService` (lib/services/query.service.ts):
 * choosing between the delivery and preview APIs, assembling the request url and its
 * query string, building the headers, and wrapping mapped items with their pagination.
 * The service's only state is its configuration, which nothing changes, so its
 * members are functions and methods of that configuration.
 */
module QueryService {
  import opened Wrappers
  import opened Responses

  const BaseDeliveryApiUrl: string := "https://deliver.kenticocloud.com"
  const PreviewDeliveryApiUrl: string := "https://preview-deliver.kenticocloud.com"
  const PreviewApiKeyMissingMessage: string := "You have to configure 'previewApiKey' to use 'preview' mode"

  /** The client configuration; an absent optional member is `None`. */
  datatype DeliveryClientConfig = DeliveryClientConfig(
    projectId: string,
    previewApiKey: Option<string>,
    enablePreviewMode: Option<bool>,
    enableAdvancedLogging: bool)

  /** The per-query configuration; `usePreviewMode` is `None` when `null` or `undefined`. */
  datatype ItemQueryConfig = ItemQueryConfig(usePreviewMode: Option<bool>)

  /** A query parameter, as its `GetParam()` and `GetParamValue()` strings. */
  datatype QueryParameter = QueryParameter(param: string, paramValue: string)

  /** One request header. */
  datatype Header = Header(header: string, value: string)

  /** The `Error` thrown for a configuration mistake, with its message. */
  datatype ConfigError = ConfigError(message: string)

  /** `isPreviewModeEnabled`: the query's setting wins when present; otherwise only a configured `true` enables preview. */
  function IsPreviewModeEnabled(config: DeliveryClientConfig, queryConfig: ItemQueryConfig): (enabled: bool)
    ensures queryConfig.usePreviewMode.Some? ==> enabled == queryConfig.usePreviewMode.value
    ensures queryConfig.usePreviewMode.None? ==> (enabled <==> config.enablePreviewMode == Some(true))
  {
    if queryConfig.usePreviewMode.Some? then queryConfig.usePreviewMode.value
    else config.enablePreviewMode == Some(true)
  }

  /** The preview key is truthy: present and not empty. */
  predicate HasPreviewApiKey(config: DeliveryClientConfig) {
    config.previewApiKey.Some? && config.previewApiKey.value != ""
  }

  /** `getDeliveryUrl`: preview mode without a preview key throws; otherwise the url of the API in use. */
  function GetDeliveryUrl(config: DeliveryClientConfig, queryConfig: ItemQueryConfig): (r: Result<string, ConfigError>)
    ensures r.Failure? <==> IsPreviewModeEnabled(config, queryConfig) && !HasPreviewApiKey(config)
    ensures r.Failure? ==> r.error == ConfigError(PreviewApiKeyMissingMessage)
    ensures r.Success? ==> r.value == if IsPreviewModeEnabled(config, queryConfig) then PreviewDeliveryApiUrl else BaseDeliveryApiUrl
  {
    if IsPreviewModeEnabled(config, queryConfig) then
      if !HasPreviewApiKey(config) then Failure(ConfigError(PreviewApiKeyMissingMessage))
      else Success(PreviewDeliveryApiUrl)
    else Success(BaseDeliveryApiUrl)
  }

  /** `getBaseUrl`: the delivery url, a slash and the project id; fails as `getDeliveryUrl` does. */
  function GetBaseUrl(config: DeliveryClientConfig, queryConfig: ItemQueryConfig): (r: Result<string, ConfigError>)
    ensures r.Failure? <==> IsPreviewModeEnabled(config, queryConfig) && !HasPreviewApiKey(config)
    ensures r.Failure? ==> r.error == ConfigError(PreviewApiKeyMissingMessage)
    ensures r.Success? ==> r.value == GetDeliveryUrl(config, queryConfig).value + "/" + config.projectId
  {
    match GetDeliveryUrl(config, queryConfig)
    case Failure(e) => Failure(e)
    case Success(deliveryUrl) => Success(deliveryUrl + "/" + config.projectId)
  }

  /** `param=value` for one query parameter. */
  function ParamText(p: QueryParameter): string {
    p.param + "=" + p.paramValue
  }

  /** The parameters' texts joined with `&`, in the given order. */
  function JoinParams(ps: seq<QueryParameter>): string
    requires ps != []
  {
    if |ps| == 1 then ParamText(ps[0])
    else JoinParams(ps[..|ps| - 1]) + "&" + ParamText(ps[|ps| - 1])
  }

  /**
   * The url with a query string appended: a `?` before the parameters when the url
   * has none yet, an `&` when it already has one, and `&` between parameters.
   */
  function WithOptions(url: string, ps: seq<QueryParameter>): (r: string)
    ensures url <= r
    ensures ps == [] ==> r == url
  {
    if ps == [] then url else url + (if '?' in url then "&" else "?") + JoinParams(ps)
  }

  /** Appending one more parameter to a url that already has a query string uses `&`. */
  lemma WithOptionsStep(url: string, ps: seq<QueryParameter>, p: QueryParameter)
    ensures WithOptions(url, ps + [p]) ==
            WithOptions(url, ps) + (if '?' in WithOptions(url, ps) then "&" else "?") + ParamText(p)
  {
    var qs := ps + [p];
    assert qs[..|qs| - 1] == ps;
    if ps != [] {
      var sep := if '?' in url then "&" else "?";
      var w := url + sep + JoinParams(ps);
      assert WithOptions(url, ps) == w;
      if '?' in url {
        var k :| 0 <= k < |url| && url[k] == '?';
        assert w[k] == '?';
      } else {
        assert w[|url|] == '?';
      }
    }
  }

  /**
   * `addOptionsToUrl`: absent options leave the url unchanged; otherwise each option
   * is appended in turn, after `?` when the url built so far has no `?` and after `&`
   * when it has one.
   */
  method AddOptionsToUrl(url: string, options: Option<seq<QueryParameter>>) returns (r: string)
    ensures options.None? ==> r == url
    ensures options.Some? ==> r == WithOptions(url, options.value)
  {
    r := url;
    if options.Some? {
      var filters := options.value;
      for i := 0 to |filters|
        invariant r == WithOptions(url, filters[..i])
      {
        WithOptionsStep(url, filters[..i], filters[i]);
        assert filters[..i + 1] == filters[..i] + [filters[i]];
        if '?' in r {
          r := r + "&" + filters[i].param + "=" + filters[i].paramValue;
        } else {
          r := r + "?" + filters[i].param + "=" + filters[i].paramValue;
        }
      }
      assert filters[..|filters|] == filters;
    }
  }

  /** Occurrences of `c` in `s`. */
  function CountChar(c: char, s: string): nat {
    if s == [] then 0 else CountChar(c, s[..|s| - 1]) + (if s[|s| - 1] == c then 1 else 0)
  }

  lemma {:induction false} CountCharAppend(c: char, a: string, b: string)
    ensures CountChar(c, a + b) == CountChar(c, a) + CountChar(c, b)
    decreases |b|
  {
    if b != [] {
      var ab := a + b;
      assert ab[..|ab| - 1] == a + b[..|b| - 1];
      CountCharAppend(c, a, b[..|b| - 1]);
    } else {
      assert a + b == a;
    }
  }

  /** Occurrences of `c` inside the parameters' own texts. */
  function CountInParams(c: char, ps: seq<QueryParameter>): nat {
    if ps == [] then 0 else CountInParams(c, ps[..|ps| - 1]) + CountChar(c, ParamText(ps[|ps| - 1]))
  }

  lemma {:induction false} CountInJoinParams(ps: seq<QueryParameter>)
    requires ps != []
    ensures CountChar('?', JoinParams(ps)) == CountInParams('?', ps)
    decreases |ps|
  {
    var init := ps[..|ps| - 1];
    assert init + [ps[|ps| - 1]] == ps;
    if |ps| == 1 {
      assert init == [];
    } else {
      CountInJoinParams(init);
      CountCharAppend('?', JoinParams(init), "&");
      CountCharAppend('?', JoinParams(init) + "&", ParamText(ps[|ps| - 1]));
      assert CountChar('?', "&") == 0 by { assert "&"[..0] == []; }
    }
  }

  /**
   * At most one `?` is ever added: besides those already in the url and in the
   * parameters themselves, the query string contributes a single `?`, and only when
   * there are parameters and the url had none.
   */
  lemma {:induction false} AtMostOneQuestionMarkAdded(url: string, ps: seq<QueryParameter>)
    ensures CountChar('?', WithOptions(url, ps)) ==
            CountChar('?', url) + CountInParams('?', ps) + (if ps != [] && '?' !in url then 1 else 0)
  {
    if ps != [] {
      var sep := if '?' in url then "&" else "?";
      CountCharAppend('?', url, sep);
      CountCharAppend('?', url + sep, JoinParams(ps));
      CountInJoinParams(ps);
      assert CountChar('?', "&") == 0 by { assert "&"[..0] == []; }
      assert CountChar('?', "?") == 1 by { assert "?"[..0] == []; }
    }
  }

  /** The options to append: none when absent. */
  function OptionsOrNone(options: Option<seq<QueryParameter>>): seq<QueryParameter> {
    if options.Some? then options.value else []
  }

  /**
   * `getUrl`: the base url, the action and then the options' query string; fails
   * when preview mode lacks a preview key.
   */
  method GetUrl(config: DeliveryClientConfig, action: string, queryConfig: ItemQueryConfig,
                options: Option<seq<QueryParameter>>) returns (r: Result<string, ConfigError>)
    ensures r.Failure? <==> IsPreviewModeEnabled(config, queryConfig) && !HasPreviewApiKey(config)
    ensures r.Success? ==>
      r.value == WithOptions(GetDeliveryUrl(config, queryConfig).value + "/" + config.projectId + action, OptionsOrNone(options))
    ensures r.Success? ==> GetDeliveryUrl(config, queryConfig).value + "/" + config.projectId + action <= r.value
  {
    var baseUrl := GetBaseUrl(config, queryConfig);
    if baseUrl.Failure? {
      return Failure(baseUrl.error);
    }
    var url := AddOptionsToUrl(baseUrl.value + action, options);
    r := Success(url);
  }

  /** `${previewApiKey}` in a template literal: an absent key prints as `undefined`. */
  function KeyText(key: Option<string>): string {
    if key.Some? then key.value else "undefined"
  }

  /** `getHeadersInternal`: no headers outside preview mode, one bearer authorization header in it. */
  method GetHeadersInternal(config: DeliveryClientConfig, queryConfig: ItemQueryConfig) returns (headers: seq<Header>)
    ensures !IsPreviewModeEnabled(config, queryConfig) ==> headers == []
    ensures IsPreviewModeEnabled(config, queryConfig) ==>
      headers == [Header("authorization", "bearer " + KeyText(config.previewApiKey))]
  {
    headers := [];
    if IsPreviewModeEnabled(config, queryConfig) {
      headers := headers + [Header("authorization", "bearer " + KeyText(config.previewApiKey))];
    }
  }

  /** The header list as an object: one key per header name, a later header overriding an earlier one of the same name. */
  method HeadersToJson(headers: seq<Header>) returns (json: map<string, string>)
    ensures json.Keys == set i | 0 <= i < |headers| :: headers[i].header
    ensures forall i :: 0 <= i < |headers| && (forall j :: i < j < |headers| ==> headers[j].header != headers[i].header) ==>
      json[headers[i].header] == headers[i].value
  {
    json := map[];
    for n := 0 to |headers|
      invariant json.Keys == set i | 0 <= i < n :: headers[i].header
      invariant forall i :: 0 <= i < n && (forall j :: i < j < n ==> headers[j].header != headers[i].header) ==>
        json[headers[i].header] == headers[i].value
    {
      json := json[headers[n].header := headers[n].value];
    }
  }

  /** `getHeadersJson`: the headers of `getHeadersInternal` as a name-to-value object. */
  method GetHeadersJson(config: DeliveryClientConfig, queryConfig: ItemQueryConfig) returns (json: map<string, string>)
    ensures !IsPreviewModeEnabled(config, queryConfig) ==> json == map[]
    ensures IsPreviewModeEnabled(config, queryConfig) ==>
      json == map["authorization" := "bearer " + KeyText(config.previewApiKey)]
  {
    var headers := GetHeadersInternal(config, queryConfig);
    json := HeadersToJson(headers);
    if IsPreviewModeEnabled(config, queryConfig) {
      assert headers[0].header == "authorization";
    }
  }

  /** `handleError`: the error is returned unchanged; with advanced logging it is also logged once. */
  function HandleError<E>(config: DeliveryClientConfig, error: E): (r: (E, seq<E>))
    ensures r.0 == error
    ensures |r.1| == (if config.enableAdvancedLogging then 1 else 0)
    ensures forall i :: 0 <= i < |r.1| ==> r.1[i] == error
  {
    (error, if config.enableAdvancedLogging then [error] else [])
  }

  /** The `pagination` member of a listing payload. */
  datatype CloudPagination = CloudPagination(skip: int, limit: int, count: int, next_page: string)

  /** `new Pagination(skip, limit, count, next_page)` from the payload: each number and the next-page url copied. */
  function PaginationOf(raw: CloudPagination): (p: Pagination)
    ensures p.skip == raw.skip && p.limit == raw.limit && p.count == raw.count && p.next_page == raw.next_page
  {
    Pagination(raw.skip, raw.limit, raw.count, raw.next_page)
  }

  /** A listing payload: its pagination and the rest of it, which only the item mapper reads. */
  datatype CloudResponseMultiple<Raw> = CloudResponseMultiple(body: Raw, pagination: CloudPagination)

  /** The item mapper for one item (`ItemMapService.mapSingleItem`), not part of this model. */
  type SingleItemMapper<!Raw, TItem> = (Raw, ItemQueryConfig) -> TItem

  /** The item mapper for a listing (`ItemMapService.mapMultipleItems`), not part of this model. */
  type MultipleItemMapper<!Raw, TItem> = (CloudResponseMultiple<Raw>, ItemQueryConfig) -> Option<seq<TItem>>

  /** `getSingleResponse`: the mapped item, wrapped unchanged. */
  function GetSingleResponse<Raw, TItem>(json: Raw, queryConfig: ItemQueryConfig,
                                         mapSingleItem: SingleItemMapper<Raw, TItem>): (r: DeliveryItemResponse<TItem>)
    ensures r.item == mapSingleItem(json, queryConfig)
  {
    DeliveryItemResponse(mapSingleItem(json, queryConfig))
  }

  /** `getMultipleResponse`: the mapped items and the payload's pagination, copied verbatim, in a listing response. */
  method GetMultipleResponse<Raw, TItem>(json: CloudResponseMultiple<Raw>, queryConfig: ItemQueryConfig,
                                         mapMultipleItems: MultipleItemMapper<Raw, TItem>)
    returns (r: DeliveryItemListingResponse<TItem>)
    ensures fresh(r) && r.Valid()
    ensures r.items == mapMultipleItems(json, queryConfig)
    ensures r.pagination == Pagination(json.pagination.skip, json.pagination.limit,
                                       json.pagination.count, json.pagination.next_page)
  {
    var items := mapMultipleItems(json, queryConfig);
    var pagination := PaginationOf(json.pagination);
    r := new DeliveryItemListingResponse(items, pagination);
  }

  /** A type listing: the mapped types and the pagination (models/type/responses is not part of this model). */
  datatype DeliveryTypeListingResponse<TType> = DeliveryTypeListingResponse(types: seq<TType>, pagination: Pagination)

  /** `getMultipleTypeResponse`: the mapped types and the payload's pagination, copied verbatim. */
  function GetMultipleTypeResponse<Raw, TType>(json: CloudResponseMultiple<Raw>,
                                               mapMultipleTypes: CloudResponseMultiple<Raw> -> seq<TType>)
    : (r: DeliveryTypeListingResponse<TType>)
    ensures r.types == mapMultipleTypes(json)
    ensures r.pagination.skip == json.pagination.skip && r.pagination.limit == json.pagination.limit
    ensures r.pagination.count == json.pagination.count && r.pagination.next_page == json.pagination.next_page
  {
    DeliveryTypeListingResponse(mapMultipleTypes(json), PaginationOf(json.pagination))
  }
}
