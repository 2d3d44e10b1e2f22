# NL-MPG-calc core in Dafny

A Dafny model of the core of NL-MPG-calc. This Java tool collects building
objects from an IFC model and links each material element to a product card of
the Dutch environmental database (NMD), so that the building's environmental
cost (MPG) can be computed. The model covers six parts of that core:

- **Building objects** (`MpgObjects`, `mpg_object.dfy`). The constructor
  normalises the IFC type name. Materials and layers are registered. Four
  validation predicates run recursively over the parent/child tree of the
  object store, and lemmas characterise each of them over a whole subtree
  (`...InSubtree`).
- **Elements** (`MpgElements`, `mpg_element.dfy`). An element binds a building
  object to a product card. The model includes the number of product units the
  element needs.
- **Geometry** (`MpgGeometries`, `mpg_geometry.dfy`):
  - the principal dimension, which is `Collections.max` over a 3-slot array,
    with its exceptions;
  - the scaling types, including the concurrent-modification failure when a
    geometry copies its own list;
  - the scale-dimension lookup, including Java's signed `%`.
- **Dimension scaler** (`NmdScalers`, `nmd_scaler.dfy`). It covers the
  inclusive bounds, the one- and two-dimensional scale factors and the unit
  conversion.
- **Data resolver** (`NmdDataResolvers`, `nmd_resolver.dfy`):
  - the IFC-type to NL-SfB-code table;
  - the search through the subscribed services, with its three `break`s;
  - the resolution loop over the store's elements, including the NullPointer
    exception that escapes it;
  - the login / pre-load / logout discipline of the `try`/`finally`, as a ghost
    event trace.
- **Phase profile** (`NmdFaseProfielen`, `nmd_fase_profiel.dfy`). It covers
  the coefficient table, `setAll`, and `calculateFactors`, which skips the
  categories whose coefficient is NaN.

Shared support:

- `Doubles` (`doubles.dfy`): Java doubles as `Val(real) | NaN`, with
  `Double.compare`.
- `Wrappers` (`wrappers.dfy`): `Option` for null, and `Result`/`Outcome` for
  thrown exceptions.
- `NmdProducts` (`nmd_product_card.dfy`): the product card value.

Where a method's comments and its code disagree, the model follows the code:
`hasUndefinedMaterials` and `hasUndefinedVolume` ignore an object's own check
as soon as it has children (MpgObjectImpl.java:167-188).

Java's `==` on strings (`productUnit == "m1"`, MpgElement.java:93) compares
references. Here the model does not follow the code literally: it compares
values, which is what the code evidently means. Each member this affects is
listed under "## Left out".

## Model

| member | source | states |
|---|---|---|
| MpgObjects.StripImplSuffix | src/org/opensourcebim/ifccollection/MpgObjectImpl.java:39 | an "Impl" followed by nothing but a final line ending is always removed, and nothing else is changed: otherwise the name is kept |
| MpgObjects.StripIfcPrefix | src/org/opensourcebim/ifccollection/MpgObjectImpl.java:40 | a leading "Ifc" is removed, and any other name is kept |
| MpgObjects.NormaliseType | src/org/opensourcebim/ifccollection/MpgObjectImpl.java:38-42 | normalising never lengthens a name, and a name with neither decoration is kept |
| MpgObjects.NormaliseDecoratedName | src/org/opensourcebim/ifccollection/MpgObjectImpl.java:38-42 | "Ifc" + x + "Impl" normalises to x; an "Impl" just before a final line terminator is removed as Java's `$` does |
| MpgObjects.NormaliseExample | src/org/opensourcebim/ifccollection/MpgObjectImpl.java:38-42 | "IfcWallImpl" becomes "Wall", and "IfcWallImpl\n" becomes "Wall\n" |
| MpgObjects.MpgObjectImpl.constructor | src/org/opensourcebim/ifccollection/MpgObjectImpl.java:31-51 | a null name becomes "undefined name"; the type is normalised; the layers, materials and properties start empty; the volume starts at 0 |
| MpgObjects.MpgObjectImpl.AddLayer | src/org/opensourcebim/ifccollection/MpgObjectImpl.java:59-61 | the layer is appended at the end |
| MpgObjects.MpgObjectImpl.SetObjectType | src/org/opensourcebim/ifccollection/MpgObjectImpl.java:78-80 | a null type is stored as "undefined type" |
| MpgObjects.MpgObjectImpl.SetGlobalId | src/org/opensourcebim/ifccollection/MpgObjectImpl.java:96-98 | the global id becomes the given value |
| MpgObjects.MpgObjectImpl.SetVolume | src/org/opensourcebim/ifccollection/MpgObjectImpl.java:105-107 | the volume becomes the given value |
| MpgObjects.MpgObjectImpl.SetParentId | src/org/opensourcebim/ifccollection/MpgObjectImpl.java:115-118 | the parent id becomes the given value, which may be null |
| MpgObjects.MpgObjectImpl.AddProperty | src/org/opensourcebim/ifccollection/MpgObjectImpl.java:126-129 | the property is put into the map, replacing any earlier value under that name |
| MpgObjects.MpgObjectImpl.AddMaterialSource | src/org/opensourcebim/ifccollection/MpgObjectImpl.java:132-135 | one listed material is appended and its name is registered with the store; the unfiltered name list grows by exactly that name |
| MpgObjects.MpgObjectImpl.GetMaterialNamesBySource | src/org/opensourcebim/ifccollection/MpgObjectImpl.java:138-143 | never more names than listed materials; for a null source, the name of every listed material in list order; each name comes from a listed material of the requested source |
| MpgObjects.MpgObjectStore.AddMaterial | src/org/opensourcebim/ifccollection/MpgObjectImpl.java:132-135 | the store's material names gain the name, and no other name is added or removed |
| MpgObjects.MpgObjectStore.constructor | src/org/opensourcebim/ifccollection/MpgObjectStore.java:7-40 | a new store holds no objects, no material names and no elements; the implementing class is not part of this model |
| MpgObjects.MpgObjectStore.Children | src/org/opensourcebim/ifccollection/MpgObjectImpl.java:173-174 | the children of an id are drawn from the stored objects; they are selected by their parent id |
| MpgObjects.NamesBySource | src/org/opensourcebim/ifccollection/MpgObjectImpl.java:138-143 | with a null source every listed name is returned, in order; otherwise every name returned comes from a listed material of that source |
| MpgObjects.NamesBySourceComplete | src/org/opensourcebim/ifccollection/MpgObjectImpl.java:138-143 | every listed material whose source matches contributes its name, so the filter drops nothing it should keep |
| MpgObjects.NamesBySourceAppend | src/org/opensourcebim/ifccollection/MpgObjectImpl.java:138-143 | the filter keeps list order: the names of a concatenation are the concatenation of the names |
| MpgObjects.DistinctCount | src/org/opensourcebim/ifccollection/MpgObjectImpl.java:157-160 | a list's set of entries is smaller than the list exactly when some entry occurs twice |
| MpgObjects.MpgObjectImpl.HasDuplicateMaterialNames | src/org/opensourcebim/ifccollection/MpgObjectImpl.java:157-160 | true iff two positions of the material list hold the same entry |
| MpgObjects.MpgObjectImpl.HasUndefinedMaterials | src/org/opensourcebim/ifccollection/MpgObjectImpl.java:167-178 | a childless object answers whether it has neither layers nor listed materials; an object with children answers false when children are not included |
| MpgObjects.UndefinedMaterialsInSubtree | src/org/opensourcebim/ifccollection/MpgObjectImpl.java:167-178 | when children are included: true iff some childless object of the subtree (the object itself if it has no children) has neither layers nor listed materials |
| MpgObjects.MpgObjectImpl.HasUndefinedVolume | src/org/opensourcebim/ifccollection/MpgObjectImpl.java:181-188 | a childless object answers whether its volume equals 0; an object with children answers false when children are not included |
| MpgObjects.UndefinedVolumeInSubtree | src/org/opensourcebim/ifccollection/MpgObjectImpl.java:181-188 | when children are included: true iff some childless object of the subtree has volume 0 |
| MpgObjects.MpgObjectImpl.HasRedundantMaterials | src/org/opensourcebim/ifccollection/MpgObjectImpl.java:191-197 | when children are not included: true iff there are no layers and more than one listed material, or a listed entry repeats; the own check always implies true |
| MpgObjects.RedundantMaterialsInSubtree | src/org/opensourcebim/ifccollection/MpgObjectImpl.java:191-197 | when children are included: true iff the object or some descendant fails the own check |
| MpgObjects.CountUnresolved | src/org/opensourcebim/ifccollection/MpgObjectImpl.java:200-210 | the count of layers without a material name is positive iff such a layer exists, and it never exceeds the number of layers |
| MpgObjects.MpgObjectImpl.HasUndefinedLayers | src/org/opensourcebim/ifccollection/MpgObjectImpl.java:200-210 | when children are not included: true iff some layer has an empty or null material name; the own check always implies true |
| MpgObjects.UndefinedLayersInSubtree | src/org/opensourcebim/ifccollection/MpgObjectImpl.java:200-210 | when children are included: true iff the object or some descendant has such a layer |
| MpgElements.MpgElement.constructor | src/org/opensourcebim/ifccollection/MpgElement.java:18-21 | the element keeps the IFC name; it has no identifier, card or object |
| MpgElements.MpgElement.SetMpgObject | src/org/opensourcebim/ifccollection/MpgElement.java:23-25 | the object becomes the given one |
| MpgElements.MpgElement.GetNmdIdentifier | src/org/opensourcebim/ifccollection/MpgElement.java:43-45 | "" without a card, otherwise the card's NL-SfB code |
| MpgElements.MpgElement.SetBimBotIdentifier | src/org/opensourcebim/ifccollection/MpgElement.java:59-61 | the identifier becomes the given value |
| MpgElements.MpgElement.SetProductCard | src/org/opensourcebim/ifccollection/MpgElement.java:77-81 | the card is replaced, and the NMD identifier becomes that card's code |
| MpgElements.MpgElement.RemoveProductCard | src/org/opensourcebim/ifccollection/MpgElement.java:83-85 | the card stays as it was, since the method does nothing |
| MpgElements.RequiredNumberOfUnits | src/org/opensourcebim/ifccollection/MpgElement.java:87-108 | NaN without an object or a card; m1 gives volume/area, m2 gives area, m3 gives volume, and kg or any other unit gives NaN |
| MpgElements.MpgElement.GetRequiredNumberOfUnits | src/org/opensourcebim/ifccollection/MpgElement.java:87-108 | the element's own object and card give NaN when either is missing, and otherwise the unit dispatch: volume/area, area, volume, or NaN |
| MpgElements.LengthTimesAreaIsVolume | src/org/opensourcebim/ifccollection/MpgElement.java:93-95 | for an m1 product with a non-zero area, the required length times the area is the volume |
| Doubles.Compare | src/org/opensourcebim/ifccollection/MpgGeometry.java:57-59 | the comparison that Collections.max uses: -1, 0 or 1, with NaN greater than every number |
| Doubles.CompareAntisymmetric | src/org/opensourcebim/ifccollection/MpgGeometry.java:57-59 | swapping the arguments negates the comparison, and it gives 0 exactly on equal values |
| Doubles.CompareTransitive | src/org/opensourcebim/ifccollection/MpgGeometry.java:57-59 | the comparison is transitive, so a maximum under it is well defined |
| MpgGeometries.MaxFromThrows | src/org/opensourcebim/ifccollection/MpgGeometry.java:57-59 | the scan throws only NullPointer, exactly when some comparison meets a null |
| MpgGeometries.MaxFromIsMaximum | src/org/opensourcebim/ifccollection/MpgGeometry.java:57-59 | a successful scan returns one of its inputs, and no input compares greater |
| MpgGeometries.MaxFrom | src/org/opensourcebim/ifccollection/MpgGeometry.java:57-59 | the scan of Collections.max throws only NullPointer, and a result is one of the scanned values |
| MpgGeometries.CollectionsMax | src/org/opensourcebim/ifccollection/MpgGeometry.java:57-59 | an empty list throws NoSuchElement and nothing else does; a single entry is returned without a comparison, even when it is null |
| MpgGeometries.CollectionsMaxSpec | src/org/opensourcebim/ifccollection/MpgGeometry.java:57-59 | NoSuchElement iff empty; NullPointer iff at least two entries and one is null; a result is an entry and is maximal under Double.compare |
| MpgGeometries.UnsetDimensionsThrow | src/org/opensourcebim/ifccollection/MpgGeometry.java:20-29 | the principal dimension of a fresh geometry throws NullPointer, because its three slots are null |
| MpgGeometries.MpgGeometry.GetPrincipalDimension | src/org/opensourcebim/ifccollection/MpgGeometry.java:57-59 | the maximum of the dimension slots under Double.compare; NullPointer iff at least two slots and one of them is null; NoSuchElement iff there are no slots |
| MpgGeometries.MpgGeometry.constructor | src/org/opensourcebim/ifccollection/MpgGeometry.java:20-29 | the volume and areas start as NaN; the geometry is not complete; a fresh array holds 3 null slots; there are no scaling types |
| MpgGeometries.MpgGeometry.SetVolume | src/org/opensourcebim/ifccollection/MpgGeometry.java:35-37 | the volume becomes the given value |
| MpgGeometries.MpgGeometry.SetFloorArea | src/org/opensourcebim/ifccollection/MpgGeometry.java:43-45 | the floor area becomes the given value |
| MpgGeometries.MpgGeometry.SetFaceArea | src/org/opensourcebim/ifccollection/MpgGeometry.java:51-53 | the face area becomes the given value |
| MpgGeometries.MpgGeometry.SetPrincipalDimensions | src/org/opensourcebim/ifccollection/MpgGeometry.java:61-63 | the caller's array itself is kept, aliased and not copied |
| MpgGeometries.MpgGeometry.AddScalingType | src/org/opensourcebim/ifccollection/MpgGeometry.java:65-67 | the scaling type is appended |
| MpgGeometries.RescaleAll | src/org/opensourcebim/ifccollection/MpgGeometry.java:70-77 | one rescaled copy per input, in order, each with the same factor; each copy reports the derived dimensions of its original and that factor |
| MpgGeometries.ScaleDimsOf | src/org/opensourcebim/ifccollection/MpgGeometry.java:84-91 | a measured scaling type reports its own dimensions; a rescaled copy reports the derived dimensions of its original and factor, given as a parameter |
| MpgGeometries.MpgGeometry.AddScalingTypesFromGeometry | src/org/opensourcebim/ifccollection/MpgGeometry.java:70-77 | for another geometry: its types are appended, rescaled by this volume / its volume, and its list is untouched; a geometry copying its own non-empty list appends one copy and then throws ConcurrentModification |
| MpgGeometries.JavaRem2 | src/org/opensourcebim/ifccollection/MpgGeometry.java:84-91 | Java's `dim % 2`: 0 for even, 1 for odd positive, -1 for odd negative |
| MpgGeometries.MpgGeometry.GetScaleDims | src/org/opensourcebim/ifccollection/MpgGeometry.java:84-91 | an even dim reads scaling type 0 and an odd positive one reads type 1; a missing type, or a negative odd dim, throws IndexOutOfBounds |
| MpgGeometries.MpgGeometry.SetIsComplete | src/org/opensourcebim/ifccollection/MpgGeometry.java:97-99 | the flag becomes the given value |
| NmdScalers.DimensionsRule | src/org/opensourcebim/nmd/NmdBaseScaler.java:92-97 | a scaler has one or two dimensions; it has two exactly when it has four bounds and two current values, and neither the last bound nor the second current value is NaN |
| NmdScalers.NmdBaseScaler.GetNumberOfDimensions | src/org/opensourcebim/nmd/NmdBaseScaler.java:92-97 | one or two; two only with four bounds and two current values, so the y bound and y value exist |
| NmdScalers.NmdBaseScaler.IsWithinBounds | src/org/opensourcebim/nmd/NmdBaseScaler.java:82-84 | inclusive on both ends, and false whenever x or a bound is NaN |
| NmdScalers.NmdBaseScaler.GetScaleFactor | src/org/opensourcebim/nmd/NmdBaseScaler.java:107-109 | the quotient of the curve at the desired value by the curve at the current value: a number exactly when both are numbers and the divisor is not 0, and then the factor times the current curve value is the desired curve value; otherwise NaN |
| NmdScalers.BoundsAreInclusive | src/org/opensourcebim/nmd/NmdBaseScaler.java:82-84 | both ends of the range are inside, NaN is never inside, and a number is inside iff min <= x <= max |
| NmdScalers.NmdBaseScaler.AreDimsWithinBounds | src/org/opensourcebim/nmd/NmdBaseScaler.java:65-72 | it throws exactly for a one-dimensional scaler with fewer than two bounds; otherwise the answer is true iff x lies in [bounds[0], bounds[1]], and for two dimensions also y lies in [bounds[2], bounds[3]] |
| NmdScalers.TwoDimensionalNeverThrows | src/org/opensourcebim/nmd/NmdBaseScaler.java:31-38 | for a two-dimensional scaler, neither the bounds check nor the scale throws |
| NmdScalers.NmdBaseScaler.Scale1 | src/org/opensourcebim/nmd/NmdBaseScaler.java:41-43 | throws IndexOutOfBounds iff there is no current value; otherwise the scale factor from the first current value to x |
| NmdScalers.ScaleAtReference | src/org/opensourcebim/nmd/NmdBaseScaler.java:41-43 | scaling to the current value gives factor 1 when the curve is non-zero there |
| NmdScalers.NmdBaseScaler.Scale2 | src/org/opensourcebim/nmd/NmdBaseScaler.java:31-38 | out of bounds gives NaN; the only exception it raises is IndexOutOfBounds |
| NmdScalers.OneDimensionalIgnoresY | src/org/opensourcebim/nmd/NmdBaseScaler.java:31-38 | a one-dimensional scaler within bounds ignores y and equals the one-argument scale |
| NmdScalers.TwoDimensionalIsProduct | src/org/opensourcebim/nmd/NmdBaseScaler.java:31-38 | a two-dimensional scale is the product of the two one-dimensional factors |
| NmdScalers.TwoDimensionalScaleAtReference | src/org/opensourcebim/nmd/NmdBaseScaler.java:31-38 | scaling both dimensions to the current values gives factor 1 |
| NmdScalers.BoundsExample | src/org/opensourcebim/nmd/NmdBaseScaler.java:31-38 | on bounds [0,10], 15 gives NaN, 5 is scaled, and the end point 10 is still scaled |
| NmdScalers.NmdBaseScaler.ScaleWithConversion | src/org/opensourcebim/nmd/NmdBaseScaler.java:46-54 | one or two dimensions are converted and then scaled; any other number of dimensions gives NaN |
| NmdScalers.UnitConversionIsNeutral | src/org/opensourcebim/nmd/NmdBaseScaler.java:46-54 | a conversion factor of 1 leaves the scale of one or of two dimensions unchanged, for any values, NaN included |
| NmdDataResolvers.ProductTable | src/org/opensourcebim/nmd/NmdDataResolverImpl.java:107-119 | exactly the eight IFC types are mapped, each to one or two NL-SfB code prefixes |
| NmdDataResolvers.NmdDataResolverImpl.GetProductToNmdMap | src/org/opensourcebim/nmd/NmdDataResolverImpl.java:107-119 | the map built is the type-to-codes table |
| NmdDataResolvers.FirstMatch | src/org/opensourcebim/nmd/NmdDataResolverImpl.java:80-84 | the index of the first card whose code contains one of the codes, or the length when none does |
| NmdDataResolvers.SubstringNotPrefix | src/org/opensourcebim/nmd/NmdDataResolverImpl.java:80-84 | `contains` matches anywhere in the code ("NL-21.10" matches "21.") and not approximately ("16.1" does not match) |
| NmdDataResolvers.UnmappedTypeResolvesToNull | src/org/opensourcebim/nmd/NmdDataResolverImpl.java:76-78 | an object whose type is not in the table resolves to null, and no service is queried |
| NmdDataResolvers.NoFallThrough | src/org/opensourcebim/nmd/NmdDataResolverImpl.java:85 | when the first service has no matching card the search stops: null, and later services are never asked |
| NmdDataResolvers.EmptyCandidateIsKept | src/org/opensourcebim/nmd/NmdDataResolverImpl.java:85-91 | a card without profile sets moves the search on, but it is still returned when the next service finds nothing |
| NmdDataResolvers.ConsultedPassOn | src/org/opensourcebim/nmd/NmdDataResolverImpl.java:85-91 | every service before the last one asked returned a card without profile sets |
| NmdDataResolvers.ConsultedStopsEarly | src/org/opensourcebim/nmd/NmdDataResolverImpl.java:85-91 | unless the services ran out, the last one asked found no card or a card with profile sets |
| NmdDataResolvers.ResolveIsLastCandidate | src/org/opensourcebim/nmd/NmdDataResolverImpl.java:73-94 | the result is the last card found; when the first service finds none it is what was found before (null in the loop) |
| NmdDataResolvers.ResolveStops | src/org/opensourcebim/nmd/NmdDataResolverImpl.java:73-92 | every service before the stop point gave a card without profile sets; the stop point gave none or one with profile sets; the result is the last card found |
| NmdDataResolvers.ResolvedCardIsFirstMatch | src/org/opensourcebim/nmd/NmdDataResolverImpl.java:73-92 | a resolved card is the fetched first match of some service's data |
| NmdDataResolvers.Consulted | src/org/opensourcebim/nmd/NmdDataResolverImpl.java:73-92 | the search asks at least one service and never more than there are |
| NmdDataResolvers.ResolveFrom | src/org/opensourcebim/nmd/NmdDataResolverImpl.java:73-92 | a card found earlier is never lost; a card is found only when the first service offers one |
| NmdDataResolvers.Lookup | src/org/opensourcebim/nmd/NmdDataResolverImpl.java:69-95 | NullPointer, and no other exception, exactly when services exist and the element has no object; a card is returned only for a mapped type for which the first service offers a card |
| NmdDataResolvers.NmdDataResolverImpl.TryGetMaterialProperties | src/org/opensourcebim/nmd/NmdDataResolverImpl.java:69-95 | the loop computes the element's lookup result; it throws NullPointer for an element without an object while services exist; the number of services queried is stated |
| NmdDataResolvers.FirstFailure | src/org/opensourcebim/nmd/NmdDataResolverImpl.java:45-54 | the first element whose lookup throws; all before it succeed |
| NmdDataResolvers.NmdDataResolverImpl.constructor | src/org/opensourcebim/nmd/NmdDataResolverImpl.java:23-28 | the resolver starts with the default database service alone |
| NmdDataResolvers.NmdDataResolverImpl.AddService | src/org/opensourcebim/nmd/NmdDataResolverImpl.java:98-105 | the service is appended, duplicates allowed |
| NmdDataResolvers.StartupStep | src/org/opensourcebim/nmd/NmdDataResolverImpl.java:37-40 | each service is logged in and then pre-loaded, in order |
| NmdDataResolvers.NmdDataResolverImpl.StartServices | src/org/opensourcebim/nmd/NmdDataResolverImpl.java:37-40 | every service is logged in and pre-loaded, or the trace stops at the login that fails |
| NmdDataResolvers.NmdDataResolverImpl.ResolveStep | src/org/opensourcebim/nmd/NmdDataResolverImpl.java:46-53 | one element is given its card when the lookup finds one, and keeps its card otherwise |
| NmdDataResolvers.NmdDataResolverImpl.ResolveElements | src/org/opensourcebim/nmd/NmdDataResolverImpl.java:45-54 | elements before the stop point are bound in order; the rest keep their cards; an escaping NullPointer is reported |
| NmdDataResolvers.NmdDataResolverImpl.StopServices | src/org/opensourcebim/nmd/NmdDataResolverImpl.java:60-64 | every service is logged out, in order |
| NmdDataResolvers.NmdDataResolverImpl.NmdToMpg | src/org/opensourcebim/nmd/NmdDataResolverImpl.java:31-67 | the same store is returned; a failing login resolves nothing; otherwise the elements up to the first failure are bound; the NullPointer escapes the catch of ArrayIndexOutOfBounds; all services are logged out in every case |
| NmdDataResolvers.SessionDiscipline | src/org/opensourcebim/nmd/NmdDataResolverImpl.java:35-64 | every resolution happens after every service has logged in and pre-loaded, no logout happens before the end, and all services log out at the end |
| NmdDataResolvers.AbortedSessionLogsOut | src/org/opensourcebim/nmd/NmdDataResolverImpl.java:56-64 | after a failed login nothing is resolved, and every service is still logged out |
| NmdFaseProfielen.NmdFaseProfielImpl.constructor | src/org/opensourcebim/nmd/NmdFaseProfielImpl.java:20-26 | every category of the reference table starts with coefficient 0, and the table has no other keys |
| NmdFaseProfielen.NmdFaseProfielImpl.SetAll | src/org/opensourcebim/nmd/NmdFaseProfielImpl.java:28-32 | every category description gets the value, and other keys keep theirs |
| NmdFaseProfielen.NmdFaseProfielImpl.SetCategory | src/org/opensourcebim/nmd/NmdFaseProfielImpl.java:39-41 | the category becomes the given value, which may be null |
| NmdFaseProfielen.NmdFaseProfielImpl.SetProfielCoefficient | src/org/opensourcebim/nmd/NmdFaseProfielImpl.java:54-56 | the coefficient is put into the table and read back unchanged |
| NmdFaseProfielen.CoefficientRoundTrip | src/org/opensourcebim/nmd/NmdFaseProfielImpl.java:49-56 | a coefficient that was set reads back; other keys are unaffected; missing keys read 0 |
| NmdFaseProfielen.CoefficientOf | src/org/opensourcebim/nmd/NmdFaseProfielImpl.java:49-51 | the stored coefficient, or 0 for a description that has none |
| NmdFaseProfielen.NmdFaseProfielImpl.GetProfielCoefficient | src/org/opensourcebim/nmd/NmdFaseProfielImpl.java:49-51 | the profile's stored coefficient, or 0 for a description that has none |
| NmdFaseProfielen.CountYielding | src/org/opensourcebim/nmd/NmdFaseProfielImpl.java:69-80 | the number of categories with a non-NaN coefficient: all of them iff each yields, none iff none does |
| NmdFaseProfielen.CostFactors | src/org/opensourcebim/nmd/NmdFaseProfielImpl.java:69-80 | at most one factor per category, each tagged with the profile's phase |
| NmdFaseProfielen.CostFactorsSize | src/org/opensourcebim/nmd/NmdFaseProfielImpl.java:69-80 | one factor per category with a non-NaN coefficient |
| NmdFaseProfielen.CostFactorsMembers | src/org/opensourcebim/nmd/NmdFaseProfielImpl.java:69-80 | a factor is in the result iff it is cost × coefficient × weight for some yielding category |
| NmdFaseProfielen.NmdFaseProfielImpl.CalculateFactors | src/org/opensourcebim/nmd/NmdFaseProfielImpl.java:69-80 | the loop produces exactly the specified factors, at most one per category |
| NmdFaseProfielen.SetAllNaNYieldsNothing | src/org/opensourcebim/nmd/NmdFaseProfielImpl.java:28-32 | after setting every coefficient to NaN no factor is produced |
| NmdFaseProfielen.SetAllNumberYieldsAll | src/org/opensourcebim/nmd/NmdFaseProfielImpl.java:28-32 | after setting every coefficient to a number, each category yields a factor |

## Left out

- Console output (`print`, `System.out.println`) and the `getX` accessors that only return a field are left out.
- The store is reached through a `Supplier` in the source. Here the object store is passed as a parameter.
- An acyclic parent relation is assumed: the source would recurse forever on a cycle.
- MpgObjects.MpgObjectStore.Children: its contract states only that the children are stored objects. The selection by parent id is its definition, and the subtree lemmas use that definition.
- MpgObjectStore beyond its fields, `addMaterial`, `getChildren` and `getElements` is not part of this model.
- MpgObject.getArea is not part of this model. An element holds a value view (type, volume, area) of its building object, so aliasing between the element and the object is not captured.
- Doubles: infinities are folded into NaN and the sign of zero is not kept. The arithmetic is exact on reals, without rounding.
- MpgElements.RequiredNumberOfUnits: compares unit strings by value, while Java's `==` compares references.
- MpgObjects.NamesBySource: compares a listed material's source with the requested source by value, while Java's `==` compares references (MpgObjectImpl.java:140).
- MpgObjects.IsUnresolvedLayer: compares a layer's material name with "" by value, while Java's `==` compares references.
- MpgObjects.MpgObjectImpl.HasDuplicateMaterialNames: assumes that `MaterialSource.equals` compares guid, name and source by value. The MaterialSource class is not part of this model. If it kept Java's default identity equality, every entry would be distinct, because addMaterialSource always creates a new object (MpgObjectImpl.java:133). hasDuplicateMaterialNames would then always return false.
- MpgObjects.MpgObjectImpl.HasRedundantMaterials: rests on the same assumption. Under identity equality only its "no layers and more than one listed material" half could make it true.
- NmdFaseProfielen.NmdFaseProfielImpl.CalculateFactors: the Java `HashSet` of cost factors is modelled as a multiset. This assumes that MpgCostFactor keeps Java's default identity equality, so every new factor is a separate member. The MpgCostFactor class is not part of this model. Under value equality, equal factors of two categories would collapse into one.
- The phase profile's reference table is modelled as the sequence of its categories in iteration order. Its integer keys are never read.
- The phase profile's `getDescription` and `getUnit` return fields that are never assigned, so they are left out.
- A null `globalId` and a null array passed to `setPrincipalDimensions` are not modelled.
- A null `Double` is not modelled in these places. Each `Double` there is a `Dbl`, so the NullPointerException Java throws on unboxing it is missing:
  - the scaler's `bounds` and `currentValues` entries (NmdBaseScaler.java:68-70, 93-94);
  - the entries of `scaleWithConversion`'s `dims` (NmdBaseScaler.java:48-50);
  - a null result of `calculate` (NmdBaseScaler.java:108);
  - a null passed to `setVolume`, `setFloorArea` or `setFaceArea` (MpgGeometry.java:35-53).
- MpgGeometries.ScaleDimsOf: the MpgScalingType class is not part of this model. So the dimensions that a derived scaling type reports are a parameter, `derived`, of its original and its factor. The model does not say how they depend on the two.
- Services are values: a data list and a profile-set table keyed by product id.
- Fetching profile sets mutates the card inside the service's list in Java. The model returns the updated card instead.
- `login`, `preLoadData` and `logout` are recorded only in a ghost trace. Their effects on the database are not modelled.
- NmdDataResolvers.Fault: the ArrayIndexOutOfBoundsException that a foreign service call may raise is a parameter, with two sites: a login, or the lookup of an element.
  - There is no site for `preLoadData` or for `logout`. In Java, a fault in a logout would also skip the later logouts.
  - `AtElement(k)` can fire even where Java makes no foreign call for that element, such as when there are no services or the type is unmapped.
- The construction of the default database session from its configuration is replaced by a `defaultService` parameter.
- The `EditableDataService` branch of `addService` has an empty body and is not modelled.
- The scaler's curve (`calculate`) is an abstract function parameter, and its coefficients are not interpreted. The scaler's constructor only stores its four lists, so it is a datatype value.
