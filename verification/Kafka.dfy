/** What an allowed operation authorises, as Kafka defines it: per operation, where the program's own
    tables (pkg/aclrbac/normalize/expand.go) go per resource type and per implying operation. */
module Kafka {
  import opened Types

  /** The resource types that support an operation, and on which an Allow of `All` therefore grants it. */
  function TypesOf(op: Operation): set<ResourceType> {
    match op
    case Describe => {Cluster, Topic, Group, TransactionalId, DelegationToken, Subject}
    case Read | Delete => {Topic, Group, Subject}
    case Write => {Topic, TransactionalId, Subject}
    case Create | Alter | DescribeConfigs | AlterConfigs => {Cluster, Topic}
    case ClusterAction | IdempotentWrite => {Cluster}
    case All | OtherOp(_) => {}
  }

  /** Reading, writing, deleting or altering lets one describe, and altering configurations lets one
      describe them; nothing else is implied. */
  predicate Implies(granted: Operation, op: Operation) {
    || (op == Describe && granted in {Read, Write, Delete, Alter})
    || (op == DescribeConfigs && granted == AlterConfigs)
  }

  /** What an Allow for `granted` on a resource of type `rt` authorises. */
  predicate KafkaGrants(rt: ResourceType, granted: Operation, op: Operation) {
    op == granted || Implies(granted, op) || (granted == All && rt in TypesOf(op))
  }

  lemma EveryTypeDescribes(rt: ResourceType)
    ensures rt in TypesOf(Describe)
  {
    match rt { case Cluster => case Topic => case Group => case TransactionalId => case DelegationToken => case Subject => }
  }

  /** What is granted through an operation that is granted is granted. */
  lemma GrantsCompose(rt: ResourceType, a: Operation, b: Operation, c: Operation)
    requires KafkaGrants(rt, a, b) && KafkaGrants(rt, b, c)
    ensures KafkaGrants(rt, a, c)
  {
    EveryTypeDescribes(rt);
  }
}
