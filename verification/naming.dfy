/** Names shared by the injector, the sbatch handler and the environment handler. */
module Naming {
  import opened Text
  import Cluster

  const CONFIG_MAP_PREFIX := "k8s-slurm-injector-config-"

  function ConfigMapName(objectName: string): string {
    CONFIG_MAP_PREFIX + KeepName(objectName)
  }

  function ConfigMapKey(namespace: string, objectName: string): Cluster.Key {
    Cluster.Key(namespace, ConfigMapName(objectName))
  }

  /** A handler that filters the object name of the URL before naming the config-map reaches the name that the
      injector computed from the unfiltered object name. */
  lemma ConfigMapNameOfFiltered(objectName: string)
    ensures ConfigMapName(KeepName(objectName)) == ConfigMapName(objectName)
  {
    FilterIdempotent(objectName, IsNameChar);
  }

  /** Two objects share a config-map name exactly when the filter maps their names to one string. */
  lemma ConfigMapNameCollision(a: string, b: string)
    ensures ConfigMapName(a) == ConfigMapName(b) <==> KeepName(a) == KeepName(b)
  {
    assert ConfigMapName(a)[|CONFIG_MAP_PREFIX|..] == KeepName(a);
    assert ConfigMapName(b)[|CONFIG_MAP_PREFIX|..] == KeepName(b);
  }
}
