/**
 * The response envelopes of lib/models/item/responses.ts. A listing response stores
 * its items and pagination and derives `isEmpty`, `firstItem` and `lastItem` once, at
 * construction. `items` being `null` or `undefined` is `None`.
 */
module Responses {
  import opened Wrappers

  /** Paging metadata of a listing: skip, limit, count and the next page's url. */
  datatype Pagination = Pagination(skip: int, limit: int, count: int, next_page: string)

  class DeliveryItemListingResponse<TItem> {
    var items: Option<seq<TItem>>
    var pagination: Pagination
    var isEmpty: bool
    var firstItem: Option<TItem>
    var lastItem: Option<TItem>

    /**
     * What construction establishes. `isEmpty` holds only when `items` is absent, so
     * an empty array is not empty; the first and last items are set exactly when
     * `items` has at least one element.
     */
    ghost predicate Valid()
      reads this
    {
      && (isEmpty <==> items.None?)
      && (firstItem.Some? <==> items.Some? && |items.value| >= 1)
      && (lastItem.Some? <==> firstItem.Some?)
      && (firstItem.Some? ==> firstItem.value == items.value[0])
      && (lastItem.Some? ==> lastItem.value == items.value[|items.value| - 1])
    }

    constructor (items: Option<seq<TItem>>, pagination: Pagination)
      ensures Valid()
      ensures this.items == items && this.pagination == pagination
    {
      this.items := items;
      this.pagination := pagination;
      firstItem := None;
      lastItem := None;
      new;
      InitIsEmpty();
      InitFirstAndLastItem();
    }

    /** `initIsEmpty`: empty exactly when there is no items array at all. */
    method InitIsEmpty()
      modifies this`isEmpty
      ensures isEmpty <==> items.None?
    {
      if items.None? {
        isEmpty := true;
      } else {
        isEmpty := false;
      }
    }

    /** `initFirstAndLastItem`: leaves both unset for an absent or empty list. */
    method InitFirstAndLastItem()
      modifies this`firstItem, this`lastItem
      ensures items.None? || |items.value| < 1 ==> firstItem == old(firstItem) && lastItem == old(lastItem)
      ensures items.Some? && |items.value| >= 1 ==>
        firstItem == Some(items.value[0]) && lastItem == Some(items.value[|items.value| - 1])
    {
      if items.None? {
        return;
      }
      if |items.value| < 1 {
        return;
      }
      firstItem := Some(items.value[0]);
      lastItem := Some(items.value[|items.value| - 1]);
    }
  }

  /** A response holding a single item, stored unchanged. */
  datatype DeliveryItemResponse<TItem> = DeliveryItemResponse(item: TItem)

  /** A one-element listing has the same first and last item. */
  lemma SingletonFirstIsLast<TItem>(r: DeliveryItemListingResponse<TItem>)
    requires r.Valid() && r.items.Some? && |r.items.value| == 1
    ensures r.firstItem == r.lastItem == Some(r.items.value[0])
  {
  }

  /** An empty items array gives a response that is not empty and has no first or last item. */
  lemma EmptyArrayIsNotEmpty<TItem>(r: DeliveryItemListingResponse<TItem>)
    requires r.Valid() && r.items == Some([])
    ensures !r.isEmpty && r.firstItem.None? && r.lastItem.None?
  {
  }
}
