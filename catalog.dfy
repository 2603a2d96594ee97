/** The package catalog: the `Package` record and the packages the seed
    script inserts (`src/seed/packagesSeed.js`). */
module Catalog {
  import opened Common

  /** `Package.type`. The schema admits only the first two; the controllers
      also handle any other value, so the model keeps a third case. */
  datatype PackageKind = Membership | BoostKind | OtherKind(tag: string)

  /** A purchasable product. Prices are whole Turkish lira as in the seed. */
  datatype Package = Package(id: Id, name: string, kind: PackageKind, durationDays: int, price: int, isActive: bool)

  /** One row of the seed script. */
  datatype SeedEntry = SeedEntry(name: string, kind: PackageKind, durationDays: int, price: int)

  const Seed: seq<SeedEntry> := [
    SeedEntry("basic", Membership, 30, 0),
    SeedEntry("standard", Membership, 30, 199),
    SeedEntry("pro", Membership, 30, 399),
    SeedEntry("boost_1_day", BoostKind, 1, 49),
    SeedEntry("boost_1_week", BoostKind, 7, 149),
    SeedEntry("boost_1_month", BoostKind, 30, 299)
  ]

  /** The seed has one row per name, and every duration is positive. */
  lemma SeedIsWellFormed()
    ensures forall i, j :: 0 <= i < j < |Seed| ==> Seed[i].name != Seed[j].name
    ensures forall i :: 0 <= i < |Seed| ==> Seed[i].durationDays > 0
  {
  }

  /** `Package.findOne({ name, type })`: the first package with that name and kind. */
  function FindPackageByName(pkgs: seq<Package>, name: string, kind: PackageKind): (r: Option<Package>)
    ensures r.Some? ==> r.value in pkgs && r.value.name == name && r.value.kind == kind
    ensures r.None? ==> forall p :: p in pkgs ==> !(p.name == name && p.kind == kind)
  {
    if pkgs == [] then None
    else if pkgs[0].name == name && pkgs[0].kind == kind then Some(pkgs[0])
    else FindPackageByName(pkgs[1..], name, kind)
  }

  /** `Package.findById(id)`. */
  function FindPackageById(pkgs: seq<Package>, id: Id): (r: Option<Package>)
    ensures r.Some? ==> r.value in pkgs && r.value.id == id
    ensures r.None? ==> forall p :: p in pkgs ==> p.id != id
  {
    if pkgs == [] then None
    else if pkgs[0].id == id then Some(pkgs[0])
    else FindPackageById(pkgs[1..], id)
  }
}
