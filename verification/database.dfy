/** The module and inverter database files selected by `modulesDatabaseType`:
    the current `get_database_paths`, and the older copies inside the plant and
    config objects, whose type-2 branch overwrites the module path. */
module Database {
  import opened Wrappers
  import opened PyValue

  const SandiaModules := "220225_Sandia_Modules.csv"
  const CecModules := "221115_CEC_Modules.csv"
  const CecInverters := "221115_CEC_Inverters.csv"

  /** The resource directory of the current package layout. */
  const SrcRoot := "./src/sodele/res/PV_Database/"
  /** The resource directory of the root package layout. */
  const RootRoot := "./sodele/res/PV_Database/"

  datatype DatabaseError =
    | UnknownModulesDatabaseType(requested: int)   // ValueError naming the type

  /** `get_database_paths`: (module database, inverter database). */
  function GetDatabasePaths(modulesDatabaseType: int): (r: Result<(string, string), DatabaseError>)
    ensures r.Success? <==> modulesDatabaseType == 1 || modulesDatabaseType == 2
    ensures modulesDatabaseType == 1 ==> r.value == (SrcRoot + SandiaModules, SrcRoot + CecInverters)
    ensures modulesDatabaseType == 2 ==> r.value == (SrcRoot + CecModules, SrcRoot + CecInverters)
    ensures r.Failure? ==> r.error == UnknownModulesDatabaseType(modulesDatabaseType)
  {
    if modulesDatabaseType == 1 then Success((SrcRoot + SandiaModules, SrcRoot + CecInverters))
    else if modulesDatabaseType == 2 then Success((SrcRoot + CecModules, SrcRoot + CecInverters))
    else Failure(UnknownModulesDatabaseType(modulesDatabaseType))
  }

  /** `getDatabasePaths` of the object model, below the directory `root`. The type
      is whatever the document held, compared numerically. */
  function ObjectDatabasePaths(root: string, modulesDatabaseType: Value): (r: Result<(string, string), PyError>)
    ensures r.Success? <==> NumEq(modulesDatabaseType, 1) || NumEq(modulesDatabaseType, 2)
    ensures NumEq(modulesDatabaseType, 1) ==> r.value == (root + SandiaModules, root + CecInverters)
    ensures NumEq(modulesDatabaseType, 2) ==> r.value == (root + CecInverters, root + CecInverters)
    ensures r.Failure? ==> r.error == Unsupported(modulesDatabaseType)
  {
    if NumEq(modulesDatabaseType, 1) then Success((root + SandiaModules, root + CecInverters))
    else if NumEq(modulesDatabaseType, 2) then Success((root + CecInverters, root + CecInverters))
    else Failure(Unsupported(modulesDatabaseType))
  }

  /** The object model agrees with `get_database_paths` on type 1 but names the
      inverter database as the module database for type 2. */
  lemma ObjectPathsDiverge()
    ensures ObjectDatabasePaths(SrcRoot, VInt(1)).value == GetDatabasePaths(1).value
    ensures ObjectDatabasePaths(SrcRoot, VInt(2)).value.0 == GetDatabasePaths(2).value.1
    ensures ObjectDatabasePaths(SrcRoot, VInt(2)).value.0 != GetDatabasePaths(2).value.0
    ensures ObjectDatabasePaths(SrcRoot, VFloat(2.0)) == ObjectDatabasePaths(SrcRoot, VInt(2))
  {
    assert (SrcRoot + CecInverters)[|SrcRoot| + 11] == 'I';
    assert (SrcRoot + CecModules)[|SrcRoot| + 11] == 'M';
  }
}
