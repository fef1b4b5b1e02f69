/**
 * The domain layer's work item (`WorkItem` entity) and the mapper that builds
 * it from the REST shape. Title, type, state, description and acceptance
 * criteria hold whatever the REST fields held, so a missing field stays
 * `undefined`.
 */
module WorkItemDomain {
  import opened JsValue
  import opened WorkItems

  datatype Entity = Entity(
    id: int,
    rev: int,
    title: Value,
    workItemType: Value,
    state: Value,
    description: Value,
    acceptanceCriteria: Value,
    relations: seq<Relation>)

  /** The entity constructor: description and acceptance criteria default to `undefined`, relations to `[]`. */
  function NewEntity(id: int, rev: int, title: Value, workItemType: Value, state: Value,
                     description: Value := Undefined, acceptanceCriteria: Value := Undefined,
                     relations: seq<Relation> := []): (e: Entity)
    ensures e.id == id && e.rev == rev && e.relations == relations
    ensures e.title == title && e.workItemType == workItemType && e.state == state
    ensures e.description == description && e.acceptanceCriteria == acceptanceCriteria
  {
    Entity(id, rev, title, workItemType, state, description, acceptanceCriteria, relations)
  }

  /** The states `isCompleted` recognises, spelled exactly. */
  const CompletedStates: set<string> := {"Closed", "Done", "Resolvido", "Resolved"}

  /** `isCompleted`: `completedStates.includes(this.state)`, a case-sensitive exact match. */
  predicate IsCompleted(e: Entity)
  {
    e.state.Str? && e.state.s in CompletedStates
  }

  /** Only the four exact spellings complete an item; other cases and the Portuguese `Fechado` do not. */
  lemma CompletedIsCaseSensitive(e: Entity)
    ensures e.state in {Str("closed"), Str("CLOSED"), Str("done"), Str("resolved"), Str("Fechado"), Str("fechado")} ==> !IsCompleted(e)
    ensures e.state in {Str("Closed"), Str("Done"), Str("Resolvido"), Str("Resolved")} ==> IsCompleted(e)
    ensures !e.state.Str? ==> !IsCompleted(e)
  {
  }

  /** `toDomain`: id, revision and the five named fields are copied as they are; missing relations become `[]`. */
  function ToDomain(raw: WorkItem): (e: Entity)
    ensures e.id == raw.id && e.rev == raw.rev
    ensures e.title == Get(raw.fields, TitleField) && e.workItemType == Get(raw.fields, TypeField)
    ensures e.state == Get(raw.fields, StateField)
    ensures e.description == Get(raw.fields, DescriptionField)
    ensures e.acceptanceCriteria == Get(raw.fields, AcceptanceCriteriaField)
    ensures raw.relations.None? ==> e.relations == []
    ensures raw.relations.Some? ==> e.relations == raw.relations.value
  {
    NewEntity(raw.id, raw.rev, Get(raw.fields, TitleField), Get(raw.fields, TypeField), Get(raw.fields, StateField),
              Get(raw.fields, DescriptionField), Get(raw.fields, AcceptanceCriteriaField), RelationsOf(raw))
  }

  /** The mapper reads the same title, type and state as the REST accessors whenever the field is a string. */
  lemma ToDomainAgreesWithAccessors(raw: WorkItem)
    ensures ToDomain(raw).state.Str? ==> ToDomain(raw).state.s == State(raw)
    ensures ToDomain(raw).title.Str? ==> ToDomain(raw).title.s == Title(raw)
    ensures ToDomain(raw).workItemType.Str? ==> ToDomain(raw).workItemType.s == TypeOf(raw)
    ensures IsCompleted(ToDomain(raw)) ==> State(raw) in CompletedStates
  {
  }

  /** Fields other than the five named ones are dropped: changing one does not change the entity. */
  lemma ToDomainIgnoresOtherFields(raw: WorkItem, key: string, v: Value)
    requires key !in {TitleField, TypeField, StateField, DescriptionField, AcceptanceCriteriaField}
    ensures ToDomain(raw.(fields := raw.fields[key := v])) == ToDomain(raw)
  {
  }

  /** `toDomainList`: the mapper applied to each element, keeping length and order. */
  function ToDomainList(raws: seq<WorkItem>): (r: seq<Entity>)
    ensures |r| == |raws|
    ensures forall i :: 0 <= i < |raws| ==> r[i] == ToDomain(raws[i])
  {
    if raws == [] then [] else [ToDomain(raws[0])] + ToDomainList(raws[1..])
  }

  /** Mapping a concatenation maps each part. */
  lemma {:induction false} ToDomainListAppend(a: seq<WorkItem>, b: seq<WorkItem>)
    ensures ToDomainList(a + b) == ToDomainList(a) + ToDomainList(b)
  {
    var l, r := ToDomainList(a + b), ToDomainList(a) + ToDomainList(b);
    forall i | 0 <= i < |l| ensures l[i] == r[i] {
      if i < |a| {
        assert (a + b)[i] == a[i];
      } else {
        assert (a + b)[i] == b[i - |a|];
      }
    }
  }
}
