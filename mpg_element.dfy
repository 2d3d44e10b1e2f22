/**
 * MpgElement: the link between a parsed building object and the product card
 * it is mapped to (src/org/opensourcebim/ifccollection/MpgElement.java).
 */
module MpgElements {

  import opened Wrappers
  import opened Doubles
  import opened NmdProducts

  /**
   * What an element reads from its building object: the normalised object
   * type, the volume and the area.
   */
  datatype MpgObjectView = MpgObjectView(objectType: Option<string>, volume: Dbl, area: Dbl)

  /**
   * The quantity of product an element needs, in the unit its card declares:
   * undefined without an object or a card, and for "kg" and every unit the
   * dispatch does not list.
   */
  function RequiredNumberOfUnits(obj: Option<MpgObjectView>, card: Option<NmdProductCard>): (r: Dbl)
    ensures obj.None? || card.None? ==> r == NaN
    ensures obj.Some? && card.Some? ==>
      r == (match card.value.unit
            case "m1" => Div(obj.value.volume, obj.value.area)
            case "m2" => obj.value.area
            case "m3" => obj.value.volume
            case _ => NaN)
  {
    if obj.None? || card.None? then NaN
    else
      var unit := card.value.unit;
      if unit == "m1" then Div(obj.value.volume, obj.value.area)
      else if unit == "m2" then obj.value.area
      else if unit == "m3" then obj.value.volume
      else if unit == "kg" then NaN
      else NaN
  }

  /**
   * The three geometric units agree: a length in metres times the area gives
   * back the volume, whenever volume and area are measured and the area is
   * not zero.
   */
  lemma LengthTimesAreaIsVolume(obj: MpgObjectView, card: NmdProductCard)
    requires card.unit == "m1"
    requires obj.volume.Val? && obj.area.Val? && obj.area.r != 0.0
    ensures Mul(RequiredNumberOfUnits(Some(obj), Some(card)),
                RequiredNumberOfUnits(Some(obj), Some(card.(unit := "m2"))))
         == RequiredNumberOfUnits(Some(obj), Some(card.(unit := "m3")))
  {
    var v, a := obj.volume.r, obj.area.r;
    assert v / a * a == v;
  }

  class MpgElement {
    var bimBotIdentifier: Option<string>
    const ifcName: Option<string>
    var nmdProductCard: Option<NmdProductCard>
    var mpgObject: Option<MpgObjectView>

    constructor (name: Option<string>)
      ensures ifcName == name
      ensures bimBotIdentifier == None && nmdProductCard == None && mpgObject == None
    {
      ifcName := name;
      bimBotIdentifier := None;
      nmdProductCard := None;
      mpgObject := None;
    }

    method SetMpgObject(obj: Option<MpgObjectView>)
      modifies this`mpgObject
      ensures mpgObject == obj
    {
      mpgObject := obj;
    }

    /** The NL-SfB code of the bound card, or "" while no card is bound. */
    function GetNmdIdentifier(): (id: string)
      reads this
      ensures nmdProductCard.None? ==> id == ""
      ensures nmdProductCard.Some? ==> id == nmdProductCard.value.nlsfbCode
    {
      if nmdProductCard.None? then "" else nmdProductCard.value.nlsfbCode
    }

    method SetBimBotIdentifier(id: Option<string>)
      modifies this`bimBotIdentifier
      ensures bimBotIdentifier == id
    {
      bimBotIdentifier := id;
    }

    /** Binds a card (or None, Java's null); nothing else about the element changes. */
    method SetProductCard(card: Option<NmdProductCard>)
      modifies this`nmdProductCard
      ensures nmdProductCard == card
      ensures GetNmdIdentifier() == if card.Some? then card.value.nlsfbCode else ""
    {
      nmdProductCard := card;
    }

    /** Unbinding is not implemented: the element keeps its card. */
    method RemoveProductCard()
      ensures nmdProductCard == old(nmdProductCard)
    {
    }

    function GetRequiredNumberOfUnits(): (r: Dbl)
      reads this
      ensures mpgObject.None? || nmdProductCard.None? ==> r == NaN
      ensures mpgObject.Some? && nmdProductCard.Some? ==>
        r == (match nmdProductCard.value.unit
              case "m1" => Div(mpgObject.value.volume, mpgObject.value.area)
              case "m2" => mpgObject.value.area
              case "m3" => mpgObject.value.volume
              case _ => NaN)
    {
      RequiredNumberOfUnits(mpgObject, nmdProductCard)
    }
  }
}
