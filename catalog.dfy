/**
 * The labware tables the protocols read: display names on the Tecan worktable, the number of
 * positions of each labware, which labware are plates, and dead/maximum volumes.
 * Two generations exist: the one in helper/utils.py (`NewTables`) and the older one in utils.py
 * (`OldTables`) that the older protocol modules import.
 */
module Catalog {
  /** A generation of the labware tables; `volumes` keeps the dict order as (name, dead, max). */
  datatype Tables = Tables(
    names: map<string, string>,
    capacity: map<string, int>,
    plates: seq<string>,
    volumes: seq<(string, real, real)>)
  {
    /** Every plate has a display name, which `dilution_position_def` looks up. */
    predicate PlatesNamed() { forall p :: p in plates ==> p in names }
  }

  const NewNames: map<string, string> := map[
    "Falcon15" := "Falcon15",
    "Falcon50" := "Falcon50",
    "Eppendorf" := "Eppendorf",
    "Eppendorf 1.5mL" := "Eppendorf",
    "Eppendorf 2mL" := "Eppendorf 2mL",
    "FakeFalcon15" := "FakeFalcon15",
    "DeepWell" := "96 Deep Well 2ml[001]",
    "384_Well" := "384 Well[001]",
    "384_Well_Tall" := "384 Well Tall[001]",
    "2R Vial" := "2R Vial holder[001]",
    "8R Vial" := "8R_Vial",
    "8R_Vial neg_ctr" := "8R_Vial_neg_ctr",
    "Pos_Ctr_Vial" := "Pos_Ctr_Vial",
    "Orange cap small vial" := "Pos_Ctr_Vial",
    "BlockingBuffer" := "100ml_1",
    "DPBS" := "100ml_2",
    "AssayBuffer" := "100ml_3",
    "Conjugate" := "100ml_4",
    "CoatingProtein" := "Falcon15[001]",
    "CoatingProtein_2" := "Falcon15[002]",
    "Dye" := "100ml_7",
    "100mL reservoir" := "100ml_1",
    "soloVPE cuvettes" := "48 Pos 2R Vial Rack[001]",
    "GeneralBuffer" := "100ml_1",
    "BSA tube" := "Brown_screw_cap_2ml",
    "16 weird tube runner" := "1x16 16mm Tube Runner No Tubes",
    "16 falcon15 tube runner" := "1x16 15ml Falcon Tube Runner no Tubes",
    "Mobile Phase" := "100ml_1",
    "2mL Vial" := "2mL_Vial",
    "UV Cuvette holder" := "UV Cuvette holder[001]",
    "UV Cuvette holder 2" := "UV Cuvette holder[002]",
    "UV Cuvette" := "UV_Cuvette"]

  const NewCapacity: map<string, int> := map[
    "Falcon15" := 48,
    "Falcon50" := 20,
    "Eppendorf" := 48,
    "FakeFalcon15" := 16,
    "DeepWell" := 96,
    "2R Vial" := 24,
    "8R Vial" := 12,
    "CustomVialHolder" := 30,
    "2mL Vial" := 40,
    "UV Cuvette" := 80,
    "UV Cuvette holder" := 40,
    "UV Cuvette holder 2" := 40]

  const NewTables := Tables(
    NewNames,
    NewCapacity,
    ["DeepWell", "384_Well", "2R Vial", "soloVPE cuvettes", "UV Cuvette holder"],
    [("Eppendorf", 0.05, 1.5), ("Falcon15", 0.6, 15.0), ("100mL_reservoir", 3.0, 100.0)])

  const OldNames: map<string, string> := map[
    "Falcon15" := "Falcon15",
    "Falcon50" := "Falcon50",
    "Eppendorf" := "Eppendorf",
    "DeepWell" := "96 Deep Well 2ml[001]",
    "2R Vial" := "2R Vial holder[001]",
    "8R Vial" := "8R Vial holder[001]",
    "CustomVialHolder" := "Custom_vial_holder[001]",
    "AssayBuffer" := "100ml_3",
    "DPBS" := "100ml_2",
    "BlockingBuffer" := "100ml_1",
    "Conjugate" := "100ml_4",
    "CoatingProtein" := "100ml_5",
    "100mL reservoir" := "100ml"]

  const OldCapacity: map<string, int> := map[
    "Falcon15" := 48,
    "Falcon50" := 20,
    "Eppendorf" := 48,
    "DeepWell" := 96,
    "2R Vial" := 24,
    "8R Vial" := 12,
    "CustomVialHolder" := 30]

  /** `LABWARE_INFO` of utils.py: (labware, dead volume, maximum volume) in mL. */
  const OldVolumes: seq<(string, real, real)> := [("Eppendorf", 0.2, 1.5), ("Falcon15", 0.8, 15.0), ("100mL_reservoir", 2.0, 100.0)]

  const OldTables := Tables(OldNames, OldCapacity, ["DeepWell", "2R Vial", "8R Vial"], OldVolumes)

  /** Both generations name every plate, so the plate branch of `dilution_position_def` never fails. */
  lemma PlatesAreNamed()
    ensures NewTables.PlatesNamed() && OldTables.PlatesNamed()
  {
  }

  /**
   * The capacity table is partial: "384_Well" has a name but no capacity, and "CustomVialHolder"
   * has a capacity but no name in the new tables.
   */
  lemma CapacityIsPartial()
    ensures "384_Well" in NewNames && "384_Well" !in NewCapacity
    ensures "CustomVialHolder" in NewCapacity && "CustomVialHolder" !in NewNames
  {
  }

  // The fixed keys the protocol modules look up, one lemma each so that each lookup stays cheap.

  lemma PosCtrVialName()
    ensures "Pos_Ctr_Vial" in NewNames && NewNames["Pos_Ctr_Vial"] == "Pos_Ctr_Vial"
  {
  }

  lemma NegCtrVialName()
    ensures "8R_Vial neg_ctr" in NewNames && NewNames["8R_Vial neg_ctr"] == "8R_Vial_neg_ctr"
  {
  }

  lemma AssayBufferName()
    ensures "AssayBuffer" in NewNames && NewNames["AssayBuffer"] == "100ml_3"
    ensures "AssayBuffer" in OldNames && OldNames["AssayBuffer"] == "100ml_3"
  {
  }

  lemma BsaTubeName()
    ensures "BSA tube" in NewNames && NewNames["BSA tube"] == "Brown_screw_cap_2ml"
  {
  }

  lemma MobilePhaseName()
    ensures "Mobile Phase" in NewNames && NewNames["Mobile Phase"] == "100ml_1"
  {
  }

  lemma CustomVialHolderName()
    ensures "CustomVialHolder" in OldNames && OldNames["CustomVialHolder"] == "Custom_vial_holder[001]"
  {
  }
}
