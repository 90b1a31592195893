/** The mutable global state object that the operations receive and change
    in place.
 */
module State {
  import opened Values
  import opened Types

  class GlobalStateObject {
    var name: Nullable<string>
    var description: Nullable<string>
    var querySpecifications: seq<QuerySpecification>
    var rdbSpecification: seq<RdbTable>

    /** The value the object currently holds. */
    function Value(): (s: GlobalState)
      reads this
      ensures s.querySpecifications == querySpecifications
      ensures s.rdbSpecification == rdbSpecification
    {
      GlobalState(name, description, querySpecifications, rdbSpecification)
    }

    constructor (init: GlobalState)
      ensures Value() == init
    {
      name := init.name;
      description := init.description;
      querySpecifications := init.querySpecifications;
      rdbSpecification := init.rdbSpecification;
    }
  }
}
