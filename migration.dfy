/** The one-time upgrade of saved test cases: version 1 stored each test case as a bare
    prompt string under `testCases`; version 2 stores records with an id, the prompt and
    an expected output under `v2.testCases`. The upgrade runs only in the browser and
    only when version-1 data is present. */
module Migration {
  datatype TestCase = TestCase(id: string, prompt: string, expectedOutput: string)

  /** The two persisted keys the upgrade touches. */
  datatype Stores = Stores(v1: seq<string>, v2: seq<TestCase>)

  /** The prompts of a list of version-2 test cases, in order. */
  function Prompts(cases: seq<TestCase>): (r: seq<string>)
    ensures |r| == |cases|
  {
    if |cases| == 0 then [] else Prompts(cases[..|cases| - 1]) + [cases[|cases| - 1].prompt]
  }

  /** Each version-1 prompt becomes a record with that prompt, an empty expected output
      and the id `newId(i)` drawn for it (`randomId()`, called once per prompt). */
  function Upgrade(v1: seq<string>, newId: nat -> string): (r: seq<TestCase>)
    ensures |r| == |v1|
    ensures forall i :: 0 <= i < |r| ==> r[i].expectedOutput == "" && r[i].id == newId(i)
    ensures Prompts(r) == v1
  {
    if |v1| == 0 then []
    else
      var before := Upgrade(v1[..|v1| - 1], newId);
      var r := before + [TestCase(newId(|v1| - 1), v1[|v1| - 1], "")];
      assert r[..|r| - 1] == before;
      assert v1[..|v1| - 1] + [v1[|v1| - 1]] == v1;
      r
  }

  /** `runMigrations`: on the server nothing happens; in the browser, version-1 data,
      when there is any, replaces whatever version-2 data there was and is then
      cleared. */
  function Migrate(st: Stores, client: bool, newId: nat -> string): (r: Stores)
    ensures !client || |st.v1| == 0 ==> r == st
    ensures client ==> r.v1 == []
    ensures client && |st.v1| > 0 ==>
              && |r.v2| == |st.v1|
              && Prompts(r.v2) == st.v1
              && forall i :: 0 <= i < |r.v2| ==> r.v2[i].expectedOutput == "" && r.v2[i].id == newId(i)
  {
    if client && |st.v1| > 0 then Stores([], Upgrade(st.v1, newId)) else st
  }

  /** Running the upgrade again changes nothing, whatever ids the second run would draw. */
  lemma MigrateIdempotent(st: Stores, client: bool, newId: nat -> string, laterId: nat -> string)
    ensures Migrate(Migrate(st, client, newId), client, laterId) == Migrate(st, client, newId)
  {
  }

  /** No prompt is lost: every version-1 prompt survives in version 2, in its place. */
  lemma {:induction false} MigrateKeepsPrompts(st: Stores, newId: nat -> string, i: nat)
    requires i < |st.v1|
    ensures Migrate(st, true, newId).v2[i].prompt == st.v1[i]
  {
    var cases := Migrate(st, true, newId).v2;
    PromptAt(cases, i);
  }

  lemma {:induction false} PromptAt(cases: seq<TestCase>, i: nat)
    requires i < |cases|
    ensures Prompts(cases)[i] == cases[i].prompt
  {
    if i < |cases| - 1 {
      PromptAt(cases[..|cases| - 1], i);
    }
  }

  /** The two persisted keys, as reactive synced state. */
  class SyncedState {
    var v1TestCases: seq<string>
    var v2TestCases: seq<TestCase>

    constructor (v1: seq<string>, v2: seq<TestCase>)
      ensures v1TestCases == v1 && v2TestCases == v2
    {
      v1TestCases, v2TestCases := v1, v2;
    }

    function Contents(): Stores
      reads this
    {
      Stores(v1TestCases, v2TestCases)
    }

    method RunMigrations(client: bool, newId: nat -> string)
      modifies this
      ensures Contents() == Migrate(old(Contents()), client, newId)
    {
      if client {
        if |v1TestCases| > 0 {
          v2TestCases := Upgrade(v1TestCases, newId);
          v1TestCases := [];
        }
      }
    }
  }
}
