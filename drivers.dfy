/**
 * The static reference tables of the fleet: drivers with their salary
 * percentages, the ride-hailing platforms, and the commission kinds.
 * Contact fields (phone, licence, group link) are display data and are not
 * kept here.
 */
module Drivers {

  datatype Driver = Driver(id: int, name: string, active: bool, salaryPercentage: int)
  datatype Platform = Platform(id: string, name: string)
  datatype CommissionType = CommissionType(id: string, name: string, platform: string)

  const DriverTable: seq<Driver> := [
    Driver(1, "Vivek Bali", true, 30),
    Driver(2, "Preetam", true, 35),
    Driver(3, "Chhotelal", true, 35),
    Driver(4, "Vikas", true, 35)
  ]

  const PlatformTable: seq<Platform> := [
    Platform("uber", "Uber"),
    Platform("indrive", "InDrive"),
    Platform("yatri", "Yatri"),
    Platform("rapido", "Rapido"),
    Platform("offline", "Offline")
  ]

  const CommissionTable: seq<CommissionType> := [
    CommissionType("uber_commission", "Uber Commission", "uber"),
    CommissionType("yatri_commission", "Yatri Commission", "yatri")
  ]

  function PlatformIds(ps: seq<Platform>): (ids: seq<string>)
    ensures |ids| == |ps|
    ensures forall i :: 0 <= i < |ps| ==> ids[i] == ps[i].id
  {
    if ps == [] then [] else [ps[0].id] + PlatformIds(ps[1..])
  }

  /** Driver ids are distinct, and so are driver names. */
  lemma DriversDistinct()
    ensures forall i, j :: 0 <= i < j < |DriverTable| ==> DriverTable[i].id != DriverTable[j].id
    ensures forall i, j :: 0 <= i < j < |DriverTable| ==> DriverTable[i].name != DriverTable[j].name
  {
  }

  /** Every percentage is a share: 30 for Vivek Bali, 35 for everyone else. */
  lemma PercentagesInRange()
    ensures forall d :: d in DriverTable ==> 0 <= d.salaryPercentage <= 100
    ensures forall d :: d in DriverTable ==> d.salaryPercentage == (if d.name == "Vivek Bali" then 30 else 35)
  {
  }

  /** The platform ids are exactly the five platforms, in this order, without repeats. */
  lemma PlatformIdsExact()
    ensures PlatformIds(PlatformTable) == ["uber", "indrive", "yatri", "rapido", "offline"]
    ensures forall i, j :: 0 <= i < j < |PlatformTable| ==> PlatformTable[i].id != PlatformTable[j].id
  {
  }

  /** Every commission kind belongs to a platform of the platform table. */
  lemma CommissionPlatformsExist()
    ensures forall c :: c in CommissionTable ==> c.platform in PlatformIds(PlatformTable)
  {
    PlatformIdsExact();
  }
}
