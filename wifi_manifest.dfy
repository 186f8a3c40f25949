/** The wifi manifest: the list of detected cards as one JSON document, for the
    processes that set up the radio link and the hotspot. */
module WifiManifest {
  import opened Json
  import opened WifiCard

  /** The cards as a JSON array, one element per card in input order; with no cards
      nothing is ever appended, so the document stays null. `untabledType` is what the
      library writes for a card type missing from the tag table. */
  method WifiCardsToJson(cards: seq<WiFiCard>, untabledType: Json) returns (j: Json)
    ensures j == Null <==> cards == []
    ensures cards != [] ==> j.Array? && |j.items| == |cards|
    ensures j.Array? ==> forall i :: 0 <= i < |cards| ==> j.items[i] == EncodeCard(cards[i], untabledType)
  {
    j := Null;
    for k := 0 to |cards|
      invariant k == 0 ==> j == Null
      invariant k > 0 ==> j.Array? && |j.items| == k
      invariant j.Array? ==> forall i :: 0 <= i < k ==> j.items[i] == EncodeCard(cards[i], untabledType)
    {
      var cardJson := EncodeCard(cards[k], untabledType);
      ghost var before := j;
      j := PushBack(j, cardJson);
      assert before.Array? ==> j.items == before.items + [cardJson];
    }
  }

  /** Reading a manifest element back gives the card it was written from, for every
      card whose type has a tag. */
  lemma ManifestReadsBack(cards: seq<WiFiCard>, j: Json, untabledJson: Json,
                          untabledType: WiFiCardType, untabledUse: WifiUseFor)
    requires j.Array? && |j.items| == |cards|
    requires forall i :: 0 <= i < |cards| ==> j.items[i] == EncodeCard(cards[i], untabledJson)
    ensures forall i :: 0 <= i < |cards| && cards[i].cardType != Realtek8812au ==>
              DecodeCard(j.items[i], untabledType, untabledUse) == Success(cards[i])
  {
    forall i | 0 <= i < |cards| && cards[i].cardType != Realtek8812au
      ensures DecodeCard(j.items[i], untabledType, untabledUse) == Success(cards[i])
    {
      CardRoundTrip(cards[i], untabledJson, untabledType, untabledUse);
    }
  }
}
