/**
  The object metadata every cluster object carries (Kubernetes ObjectMeta),
  reduced to the fields the controller reads or writes.
*/
module Meta {
  import opened Wrappers

  /** A namespaced name; cluster-scoped objects use the empty namespace. */
  datatype Key = NamespacedName(namespace: string, name: string)

  /** A controller owner reference to an AtlasMap, by name. */
  datatype OwnerRef = OwnerRef(kind: string, name: string)

  datatype ObjectMeta = ObjectMeta(
    name: string,
    namespace: string,
    /** The opaque token the API server changes on every write. */
    resourceVersion: string,
    labels: map<string, string>,
    /** None stands for Go's nil map. */
    annotations: Option<map<string, string>>,
    controller: Option<OwnerRef>,
    /** DeletionTimestamp != nil. */
    deleting: bool)
  {
    function Key(): Key { NamespacedName(namespace, name) }

    /**
      The value stored under `key`: what indexing a Go map yields, so a
      missing key and a nil map both give "".
    */
    function Annotation(key: string): string
    {
      if annotations.Some? && key in annotations.value then annotations.value[key] else ""
    }
  }

  /** Metadata with only a name, namespace and labels, as the templates build it. */
  function NewMeta(name: string, namespace: string, labels: map<string, string>): ObjectMeta
  {
    ObjectMeta(name, namespace, "", labels, None, None, false)
  }
}
