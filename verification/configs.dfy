/** The deployment constants of the split tool and the `pick` helper that
    restricts an object to a list of keys. */
module Configs {
  import opened Json

  const QUEUE_KEY: string := "split-tasks-queue"
  const CASHY_BOARD_ID: int := 2
  const TRANSITION_TO_CLOSED: string := "51"
  const SPRINT_FIELD_NAME: string := "customfield_10020"
  const STORY_POINT_FIELD_NAME: string := "customfield_10024"
  const PULL_REQUEST_STATUS: string := "Pull Request"
  /** Points deducted from an issue in any status other than "Pull Request". */
  const QA_POINT: real := 0.5
  /** Points deducted from an issue in status "Pull Request". */
  const PULL_REQUEST_POINT: real := 1.0

  lemma StepsOrdered()
    ensures PULL_REQUEST_POINT > QA_POINT > 0.0
  {
  }

  /** The set of keys a key list mentions. */
  function KeySet(keys: seq<string>): (s: set<string>)
    ensures forall k :: k in s <==> k in keys
  {
    set k | k in keys
  }

  /** `pick(obj, keys)`: every listed key maps to `{[k]: obj[k]}` when `obj`
      has it and to `{}` otherwise, and the singletons are merged left to
      right into a fresh object. The fold is modelled on the key prefix. */
  function Pick<V>(obj: map<string, V>, keys: seq<string>): map<string, V>
    decreases |keys|
  {
    if keys == [] then map[]
    else
      var k := keys[|keys| - 1];
      Pick(obj, keys[..|keys| - 1]) + (if k in obj then map[k := obj[k]] else map[])
  }

  /** The keys of `pick(obj, keys)` are the listed keys present in `obj`:
      absent keys do not appear, not even as undefined, and unlisted keys of
      `obj` never do; every value is `obj`'s. */
  lemma {:induction false} PickSpec<V>(obj: map<string, V>, keys: seq<string>)
    ensures forall k {:trigger k in Pick(obj, keys)} :: k in Pick(obj, keys) <==> k in obj && k in keys
    ensures forall k {:trigger Pick(obj, keys)[k]} :: k in Pick(obj, keys) ==> Pick(obj, keys)[k] == obj[k]
    decreases |keys|
  {
    if keys != [] {
      var init := keys[..|keys| - 1];
      PickSpec(obj, init);
      assert forall j :: j in keys <==> j in init || j == keys[|keys| - 1];
    }
  }

  /** `pick` agrees with the restriction of `obj` to the listed keys. */
  lemma PickIsRestriction<V>(obj: map<string, V>, keys: seq<string>)
    ensures Pick(obj, keys) == map k | k in obj && k in keys :: obj[k]
  {
    PickSpec(obj, keys);
  }

  lemma PickIdempotent<V>(obj: map<string, V>, keys: seq<string>)
    ensures Pick(Pick(obj, keys), keys) == Pick(obj, keys)
  {
    PickSpec(obj, keys);
    PickSpec(Pick(obj, keys), keys);
  }

  /** Duplicated or reordered keys give the same object. */
  lemma PickDependsOnKeySetOnly<V>(obj: map<string, V>, keys1: seq<string>, keys2: seq<string>)
    requires KeySet(keys1) == KeySet(keys2)
    ensures Pick(obj, keys1) == Pick(obj, keys2)
  {
    PickSpec(obj, keys1);
    PickSpec(obj, keys2);
    assert forall k :: k in keys1 <==> k in keys2 by {
      forall k ensures k in keys1 <==> k in keys2 {
        assert k in keys1 <==> k in KeySet(keys1);
        assert k in keys2 <==> k in KeySet(keys2);
      }
    }
  }
}
