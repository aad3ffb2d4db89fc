/** The demonstration data of backend/internal/database/database.go: rows that are inserted with
    one revision and no audit, in any status, are states from which the theorems start. */
module Seeds {
  import opened Records
  import opened Transactions
  import opened Statuses
  import opened Protocol
  import opened Invariants
  import opened Evidence
  import opened Duties

  function SeedReason(kind: Kind): string {
    if kind == Certificate then "initial demonstration certificate" else "initial demonstration authorization"
  }

  function InsertSeed(db: Db, item: Record): Db {
    var key := NextKey(db, item.Kind());
    Db(db.rows[key := Row(item, false)],
       db.revisions + [Revision(key, item.version, item.status, item.fields.evidence, "system-seed", "seed-gb-515",
                                SeedAction, SeedReason(item.Kind()))],
       db.audits, db.nextId + 1)
  }

  function SeedAll(items: seq<Record>): Db {
    if items == [] then Db(map[], [], [], 1) else InsertSeed(SeedAll(items[..|items| - 1]), items[|items| - 1])
  }

  lemma InsertSeedInitial(db: Db, item: Record)
    requires Initial(State(db, map[])) && AllSignedOff(db)
    requires item.version == 1 && item.code != "" && SignedOff(item)
    ensures Initial(State(InsertSeed(db, item), map[])) && AllSignedOff(InsertSeed(db, item))
  {
    var slot, db' := NextKey(db, item.Kind()), InsertSeed(db, item);
    assert ShapedAt(db, slot);
    forall key ensures ShapedAt(db', key) && Seeded(db', key) {
      LogOfAppend(db.revisions, db'.revisions[|db.revisions|], key);
      assert ShapedAt(db, key) && Seeded(db, key);
    }
  }

  /** Any list of version-one rows with codes and proper sign-offs is a place to start from. */
  lemma {:induction false} SeedsAreInitial(items: seq<Record>)
    requires forall item :: item in items ==> item.version == 1 && item.code != "" && SignedOff(item)
    ensures Initial(State(SeedAll(items), map[])) && AllSignedOff(SeedAll(items))
  {
    if items != [] {
      SeedsAreInitial(items[..|items| - 1]);
      assert items[|items| - 1] in items;
      InsertSeedInitial(SeedAll(items[..|items| - 1]), items[|items| - 1]);
    }
  }

  /** Each seed is inserted as it is, in order, live and with one revision that says so. */
  lemma {:induction false} SeedsAreListed(items: seq<Record>, i: nat)
    requires i < |items|
    ensures var db, key := SeedAll(items), Key(items[i].Kind(), i + 1);
            && db.audits == [] && db.nextId == |items| + 1 && |db.revisions| == |items|
            && key in db.rows && db.rows[key] == Row(items[i], false)
            && db.revisions[i] ==
               Revision(key, items[i].version, items[i].status, items[i].fields.evidence, "system-seed", "seed-gb-515",
                        SeedAction, if items[i].Kind() == Certificate then "initial demonstration certificate"
                                    else "initial demonstration authorization")
  {
    var init := items[..|items| - 1];
    SeedNumbers(init);
    if i < |init| {
      SeedsAreListed(init, i);
    }
  }

  lemma {:induction false} SeedNumbers(items: seq<Record>)
    ensures var db := SeedAll(items);
            db.audits == [] && db.nextId == |items| + 1 && |db.revisions| == |items|
  {
    if items != [] {
      SeedNumbers(items[..|items| - 1]);
    }
  }

  /** The three places, teams and settings that both tables are seeded with. */
  function Site(name: string, table: string, n: nat): Fields
    requires n < 3
  {
    Fields(name,
           ["航空部件适航放行区域1", "航空部件适航放行区域2", "航空部件适航放行区域3"][n],
           ["运行一组", "质量复核组", "安全主管组"][n],
           "已完成基础证据核对",
           "用于启动验证和主要流程演示的" + table + "记录 "
           + ["常规 low 12.5 unit +0h REL-515-01",
              "重点 medium 25.0 % +3h REL-515-02",
              "复核 high 37.5 score +6h REL-515-03"][n])
  }

  function Seed(code: string, fields: Fields, status: Status, signoff: Signoff): Record {
    Record(code, fields, status, 1, signoff)
  }

  const DEMONSTRATION: seq<Record> := [
    Seed("CR-001", Site("证书记录示例一", "证书记录", 0), Draft, Prepared("operator", "")),
    Seed("CR-002", Site("证书记录示例二", "证书记录", 1), Valid, Prepared("operator", "reviewer")),
    Seed("CR-003", Site("证书记录示例三", "证书记录", 2), Expired, Prepared("operator", "reviewer")),
    Seed("RA-001", Site("放行授权示例一", "放行授权", 0), Draft, Dual("", "", "")),
    Seed("RA-002", Site("放行授权示例二", "放行授权", 1), Review, Dual("operator", "", "")),
    Seed("RA-003", Site("放行授权示例三", "放行授权", 2), Approved, Dual("operator", "reviewer", "演示数据双人复核通过"))]

  /** The six shipped rows are such a list. */
  lemma DemonstrationIsInitial()
    ensures Initial(State(SeedAll(DEMONSTRATION), map[])) && AllSignedOff(SeedAll(DEMONSTRATION))
  {
    hide Site, SeedAll, Initial, AllSignedOff;
    assert "operator" != "reviewer" by {
      assert "operator"[0] != "reviewer"[0];
    }
    SeedsAreInitial(DEMONSTRATION);
  }
}
