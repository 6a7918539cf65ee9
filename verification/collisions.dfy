/** When two objects share one config-map, and what the watcher then does. */
module Collisions {
  import opened Text
  import opened Naming
  import opened Objects
  import opened JobInformation
  import opened Protocol
  import Cluster
  import Injector
  import Mutation
  import ProtocolNecessity
  import Transport

  /** The filtered name under which an object is known, with the prefix of its kind. */
  function FilteredName(m: Manifest): string
    requires GetObjectName(m).Some?
  {
    KeepName(KindPrefix(m.kind) + GetObjectName(m).value)
  }

  /** Two objects share a config-map exactly if they share the namespace and the filtered name. */
  lemma SharedConfigMap(m: Manifest, m': Manifest, namespace: string, namespace': string)
    requires Resolvable(m) && Resolvable(m')
    ensures Injector.KeyOf(m, namespace) == Injector.KeyOf(m', namespace') <==>
            namespace == namespace' && FilteredName(m) == FilteredName(m')
  {
    Mutation.PrintedFields(m, namespace);
    Mutation.PrintedFields(m', namespace');
    ConfigMapNameCollision(KindPrefix(m.kind) + GetObjectName(m).value, KindPrefix(m'.kind) + GetObjectName(m').value);
  }

  lemma {:induction false} FilterConcat(a: string, b: string, allowed: char -> bool)
    ensures Filter(a + b, allowed) == Filter(a, allowed) + Filter(b, allowed)
  {
    if a == [] {
      assert a + b == b;
    } else {
      FilterConcat(a[1..], b, allowed);
      assert (a + b)[1..] == a[1..] + b;
    }
  }

  predicate Nameless(m: Manifest) { m.name == "" && m.generateName != "" }

  lemma PrintIsKept(i: int)
    ensures KeepName(PrintInt(i)) == PrintInt(i)
  {
    PrintNatDecimal(if i < 0 then -i else i);
    FilterKeepsAllowed(PrintInt(i), IsNameChar);
  }

  /** The filtered name of an object without a name. */
  lemma NamelessName(m: Manifest)
    requires Nameless(m)
    ensures GetObjectName(m).Some?
    ensures FilteredName(m) == KindPrefix(m.kind) + (KeepName(m.generateName) + PrintInt(m.generation))
  {
    FilterConcat(KindPrefix(m.kind), m.generateName + PrintInt(m.generation), IsNameChar);
    FilterConcat(m.generateName, PrintInt(m.generation), IsNameChar);
    FilterKeepsAllowed(KindPrefix(m.kind), IsNameChar);
    PrintIsKept(m.generation);
  }

  /** Two objects of one kind without names share a config-map exactly if namespaces agree and filtered generateName and
      generation, written one after the other, agree. */
  lemma NamelessShare(m: Manifest, m': Manifest, namespace: string, namespace': string)
    requires Resolvable(m) && Resolvable(m') && Nameless(m) && Nameless(m') && m.kind == m'.kind
    ensures Injector.KeyOf(m, namespace) == Injector.KeyOf(m', namespace') <==>
            namespace == namespace'
            && KeepName(m.generateName) + PrintInt(m.generation) == KeepName(m'.generateName) + PrintInt(m'.generation)
  {
    SharedConfigMap(m, m', namespace, namespace');
    NamelessName(m);
    NamelessName(m');
    var p, a, b := KindPrefix(m.kind), KeepName(m.generateName) + PrintInt(m.generation),
      KeepName(m'.generateName) + PrintInt(m'.generation);
    assert (p + a)[|p|..] == a && (p + b)[|p|..] == b;
  }

  /** The last digit of a generation may as well belong to the other name: distinct parts collide too. */
  lemma MovedDigit(g: string, n: nat)
    requires n >= 10
    ensures KeepName(g + PrintNat(n / 10)) + PrintInt(n % 10) == KeepName(g) + PrintInt(n)
  {
    FilterConcat(g, PrintNat(n / 10), IsNameChar);
    PrintIsKept(n / 10);
    assert KeepName(g) + PrintNat(n / 10) + [DigitChar(n % 10)] == KeepName(g) + (PrintNat(n / 10) + [DigitChar(n % 10)]);
  }

  /** Two objects in one namespace with one filtered name, admitted with different UUIDs, lead to a run in which the
      watcher cancels the job of the first beside its live pod, and in which only the clause on distinct names is
      violated. */
  lemma SharedConfigMapIsHarmful(m: Manifest, m': Manifest, namespace: string, uuid: string, uuid': string,
                                 pod: Cluster.Key, id: string)
    returns (states: seq<State>, steps: seq<Step>)
    requires Resolvable(m) && Resolvable(m') && FilteredName(m) == FilteredName(m')
    requires uuid != uuid' && AllOf(uuid, IsNameChar) && AllOf(uuid', IsNameChar) && AllOf(namespace, IsNameChar) && IsDecimal(id)
    ensures ProtocolNecessity.Harms(ProtocolNecessity.WITHOUT_NAMES, states, steps, Cancel(id))
  {
    SharedConfigMap(m, m', namespace, namespace);
    Transport.AdmissionKey(m, namespace, uuid);
    Transport.AdmissionKey(m', namespace, uuid');
    states, steps := ProtocolNecessity.WithoutDistinctNames(
      Transport.AdmissionOfObject(m, namespace, uuid), Transport.AdmissionOfObject(m', namespace, uuid'), pod, id);
  }
}
