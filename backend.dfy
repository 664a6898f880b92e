/** The record store as the handlers use it: the three DynamoDB calls, the
    requests they carry and the replies they get. The store's answers are
    given as data; the model records which calls were made. */
module Backend {
  import opened Base
  import opened Records

  /** The one table every call names. */
  const TableName := "Kfeng2_MC_Servers"

  datatype AttributeValue = S(s: string)

  datatype Condition = Condition(comparisonOperator: string, attributeValueList: seq<AttributeValue>)

  datatype QueryInput = QueryInput(tableName: string, keyConditions: map<string, Condition>)

  /** The search handler's query: `Hostname` equal to `key`. */
  function HostnameQuery(key: string): (q: QueryInput)
    ensures q.tableName == TableName && q.keyConditions.Keys == {"Hostname"}
    ensures q.keyConditions["Hostname"].comparisonOperator == "EQ"
    ensures q.keyConditions["Hostname"].attributeValueList == [S(key)]
  {
    QueryInput(TableName, map["Hostname" := Condition("EQ", [S(key)])])
  }

  /** What one key condition means for a record: an `EQ` condition on
      `Hostname` with a single string value holds exactly when the record's
      hostname is that value. No other attribute or operator occurs in the
      source, so any other condition selects nothing here. */
  predicate ConditionHolds(attribute: string, c: Condition, rec: ServerStatus) {
    && attribute == "Hostname"
    && c.comparisonOperator == "EQ"
    && |c.attributeValueList| == 1
    && rec.hostname == c.attributeValueList[0].s
  }

  /** A query selects a record of the table when every key condition holds. */
  predicate Selects(q: QueryInput, rec: ServerStatus) {
    && q.tableName == TableName
    && forall attribute :: attribute in q.keyConditions ==> ConditionHolds(attribute, q.keyConditions[attribute], rec)
  }

  /** The search handler's query selects exactly the records whose hostname
      equals the key. */
  lemma HostnameQuerySelects(key: string, rec: ServerStatus)
    ensures Selects(HostnameQuery(key), rec) <==> rec.hostname == key
  {
    var q := HostnameQuery(key);
    if rec.hostname == key {
      forall attribute | attribute in q.keyConditions
        ensures ConditionHolds(attribute, q.keyConditions[attribute], rec)
      {
        assert attribute == "Hostname";
      }
    } else {
      assert "Hostname" in q.keyConditions;
      assert !ConditionHolds("Hostname", q.keyConditions["Hostname"], rec);
    }
  }

  /** A call made to the store. */
  datatype Call = ScanCall(table: string) | DescribeCall(table: string) | QueryCall(input: QueryInput)

  /** The reply to a scan or a query: the items, each as `UnmarshalMap`
      decodes it, or the call's error. */
  datatype Reply = Items(items: seq<Unmarshalled>) | Failed(error: string)

  /** The reply to `DescribeTable`: the table's item count (`None` where the
      description carries no count), or the call's error. */
  datatype DescribeReply = Described(itemCount: Option<Int64>) | DescribeFailed(error: string)

  /** How the store answers each kind of call. */
  datatype Store = Store(scan: Reply, describe: DescribeReply, query: QueryInput -> Reply)

  /** The process-wide database handle. */
  class Database {
    const store: Store
    var calls: seq<Call>

    constructor (store: Store)
      ensures this.store == store && calls == []
    {
      this.store := store;
      calls := [];
    }

    /** `database.Scan`. */
    method Scan(table: string) returns (r: Reply)
      modifies this
      ensures r == store.scan && calls == old(calls) + [ScanCall(table)]
    {
      r := store.scan;
      calls := calls + [ScanCall(table)];
    }

    /** `database.DescribeTable`. */
    method DescribeTable(table: string) returns (r: DescribeReply)
      modifies this
      ensures r == store.describe && calls == old(calls) + [DescribeCall(table)]
    {
      r := store.describe;
      calls := calls + [DescribeCall(table)];
    }

    /** `database.Query`. */
    method Query(input: QueryInput) returns (r: Reply)
      modifies this
      ensures r == store.query(input) && calls == old(calls) + [QueryCall(input)]
    {
      r := store.query(input);
      calls := calls + [QueryCall(input)];
    }
  }
}
