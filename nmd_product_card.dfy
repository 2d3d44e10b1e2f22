/**
 * The product records of the external product database, as far as the core
 * reads them: an identifier, the NL-SfB classification code, the declared unit
 * ("m1", "m2", "m3", "kg", ...) and the profile sets.
 */
module NmdProducts {

  /** One profile set of a product card; its contents are not read by the core. */
  datatype NmdProfileSet = NmdProfileSet(name: string)

  datatype NmdProductCard = NmdProductCard(
    productId: int,
    nlsfbCode: string,
    unit: string,
    profileSets: seq<NmdProfileSet>)
}
