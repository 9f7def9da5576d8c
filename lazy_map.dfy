/** `DatabaseEntityModelLazyMap`: builds the model of an entity type the
    first time it is asked for and hands out that same object afterwards.
 */
module DatabaseEntityModelLazyMap {
  import opened Elements
  import DatabaseEntityModelKt

  class DatabaseEntityModelLazyMap {
    var dbEntities: map<TypeElement, DatabaseEntityModelKt.DatabaseEntityModel>

    /** Every stored model describes the type it is stored under. */
    ghost predicate Valid()
      reads this, set e | e in dbEntities :: dbEntities[e]
    {
      forall e :: e in dbEntities ==> dbEntities[e].databaseTypeElement == e
    }

    constructor ()
      ensures dbEntities == map[] && Valid()
    {
      dbEntities := map[];
    }

    /** `get`: the stored model of `element`, created and stored on first
        use.  Never null; other entries are left alone. */
    method Get(element: TypeElement) returns (entity: DatabaseEntityModelKt.DatabaseEntityModel)
      requires Valid()
      modifies this
      ensures Valid()
      ensures entity.databaseTypeElement == element
      ensures element in old(dbEntities) ==> entity == old(dbEntities)[element] && dbEntities == old(dbEntities)
      ensures element !in old(dbEntities) ==> fresh(entity) && dbEntities == old(dbEntities)[element := entity]
      ensures element in dbEntities && dbEntities[element] == entity
      ensures |dbEntities.Keys| <= |old(dbEntities).Keys| + 1
    {
      if element in dbEntities {
        entity := dbEntities[element];
      } else {
        entity := new DatabaseEntityModelKt.DatabaseEntityModel(element);
        dbEntities := dbEntities[element := entity];
      }
    }
  }

  /** Asking twice gives the identical object, and the second call changes
      nothing. */
  method GetTwice(lazyMap: DatabaseEntityModelLazyMap, element: TypeElement)
    returns (first: DatabaseEntityModelKt.DatabaseEntityModel, second: DatabaseEntityModelKt.DatabaseEntityModel)
    requires lazyMap.Valid()
    modifies lazyMap
    ensures first == second
    ensures lazyMap.Valid() && element in lazyMap.dbEntities
    ensures forall e :: e in old(lazyMap.dbEntities) ==> e in lazyMap.dbEntities && lazyMap.dbEntities[e] == old(lazyMap.dbEntities)[e]
  {
    first := lazyMap.Get(element);
    second := lazyMap.Get(element);
  }
}
