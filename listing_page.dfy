/** The listing detail page (client/src/pages/Listing.jsx): the price box, the
    room labels and who sees the contact card. */
module ListingPage {
  import opened Common
  import opened ListingModel

  /** `discountAmount`: the saving shown on an offer, nothing otherwise. */
  function DiscountAmount(c: Content): (d: int)
    ensures c.offer ==> d == c.regularPrice - c.discountPrice
    ensures !c.offer ==> d == 0
  {
    if c.offer then c.regularPrice - c.discountPrice else 0
  }

  /** `finalPrice`: the discount price on an offer, the regular price otherwise. */
  function FinalPrice(c: Content): (p: int)
    ensures c.offer ==> p == c.discountPrice
    ensures !c.offer ==> p == c.regularPrice
  {
    if c.offer then c.discountPrice else c.regularPrice
  }

  /** The price paid and the saving always add up to the regular price, and
      the saving is positive exactly on an offer whose discount is below the
      regular price. */
  lemma PriceAndSavingAddUp(c: Content)
    ensures FinalPrice(c) + DiscountAmount(c) == c.regularPrice
    ensures DiscountAmount(c) > 0 <==> c.offer && c.discountPrice < c.regularPrice
  {
  }

  /** A room count label: the number, then the noun, in the plural for more than one. */
  function RoomLabel(n: int, noun: string): string {
    if n > 1 then IntToString(n) + " " + noun + "s" else IntToString(n) + " " + noun
  }

  function BedroomLabel(n: int): string {
    RoomLabel(n, "Bedroom")
  }

  function BathroomLabel(n: int): string {
    RoomLabel(n, "Bathroom")
  }

  /** A label is plural exactly when the count exceeds one, and starts with the count. */
  lemma LabelPluralIff(n: int, noun: string)
    requires noun != "" && noun[|noun| - 1] != 's'
    ensures var text := RoomLabel(n, noun);
            && (text[|text| - 1] == 's' <==> n > 1)
            && text[..|IntToString(n)|] == IntToString(n)
  {
    var text := RoomLabel(n, noun);
    var digits := IntToString(n);
    if n > 1 {
      assert text == digits + " " + noun + "s";
    } else {
      assert text == digits + " " + noun;
      assert text[|text| - 1] == noun[|noun| - 1];
    }
  }

  /** The contact card shows for a signed-in visitor who does not own the listing. */
  function ShowContact(currentUser: Option<Id>, l: Listing): (show: bool)
    ensures show <==> currentUser.Some? && currentUser.value != l.userRef
  {
    currentUser.Some? && l.userRef != currentUser.value
  }
}
