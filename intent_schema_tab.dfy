/** The intent-schema tab: the ten built-in intent definitions as cards
    that expand and collapse one at a time or all together. The expanded
    cards are the set of their names. */
module IntentSchemaTab {
  import opened Common
  import BatchTestingTab

  datatype IntentDefinition = IntentDefinition(name: string, description: string, examples: seq<string>, entities: seq<string>)

  const IntentSchema: seq<IntentDefinition> := [
    IntentDefinition("greeting", "User initiates conversation with a greeting",
      ["Hello", "Hi there", "Good morning", "Hey"], ["time_of_day"]),
    IntentDefinition("farewell", "User ends the conversation",
      ["Goodbye", "See you later", "Thanks, bye", "Have a nice day"], []),
    IntentDefinition("help_request", "User asks for assistance or support",
      ["I need help", "Can you assist me?", "Having an issue", "Support needed"], ["issue_type", "urgency"]),
    IntentDefinition("order_status", "User inquires about their order",
      ["Where is my order?", "Track my package", "Order status", "When will it arrive?"], ["order_id", "product_name"]),
    IntentDefinition("product_inquiry", "User asks about a product or service",
      ["Tell me about this product", "What are the features?", "How much does it cost?"], ["product_name", "attribute"]),
    IntentDefinition("complaint", "User expresses dissatisfaction",
      ["This is unacceptable", "I want to file a complaint", "Very disappointed"], ["issue_type", "product_name"]),
    IntentDefinition("feedback", "User provides feedback about experience",
      ["Great service!", "Could be better", "I have some suggestions"], ["sentiment", "topic"]),
    IntentDefinition("booking", "User wants to make a reservation or appointment",
      ["Book a table", "Schedule a meeting", "Reserve for tomorrow"], ["date", "time", "party_size"]),
    IntentDefinition("cancellation", "User wants to cancel an order or booking",
      ["Cancel my order", "I need to cancel", "Remove my reservation"], ["order_id", "booking_id"]),
    IntentDefinition("payment", "User has payment-related queries",
      ["Payment failed", "How do I pay?", "Refund request", "Payment methods"], ["payment_method", "amount"])
  ]

  /** The names of a list of definitions, in order. */
  function Names(schema: seq<IntentDefinition>): (names: seq<string>)
    ensures |names| == |schema|
    ensures forall i :: 0 <= i < |schema| ==> names[i] == schema[i].name
  {
    seq(|schema|, i requires 0 <= i < |schema| => schema[i].name)
  }

  /** The schema lists ten intents, the same names in the same order as the
      batch tab's drop-down. */
  lemma SchemaMatchesBatchIntents()
    ensures |IntentSchema| == 10
    ensures Names(IntentSchema) == BatchTestingTab.SampleIntents
  {
  }

  /** No two definitions share a name, so a name picks out one card. */
  lemma SchemaNamesDistinct(i: nat, j: nat)
    requires i < j < |IntentSchema|
    ensures IntentSchema[i].name != IntentSchema[j].name
  {
    // The names differ in their length or in one of their first two
    // characters; each value of `i` is settled on its own.
    if i == 0 {} else if i == 1 {} else if i == 2 {} else if i == 3 {} else if i == 4 {}
    else if i == 5 {} else if i == 6 {} else if i == 7 {} else {}
  }

  /** `toggleIntent`'s new set: the name flips, every other name keeps its
      membership. */
  function Toggled(expanded: set<string>, name: string): (r: set<string>)
    ensures name in r <==> name !in expanded
    ensures forall other :: other != name ==> (other in r <==> other in expanded)
  {
    if name in expanded then expanded - {name} else expanded + {name}
  }

  /** Toggling the same name twice restores the set. */
  lemma ToggledTwice(expanded: set<string>, name: string)
    ensures Toggled(Toggled(expanded, name), name) == expanded
  {
    var r := Toggled(Toggled(expanded, name), name);
    assert forall n :: n in r <==> n in expanded;
  }

  /** The set `new Set(schema.map(i => i.name))`. */
  function NameSet(schema: seq<IntentDefinition>): (s: set<string>)
    ensures forall n :: n in s <==> exists i :: 0 <= i < |schema| && schema[i].name == n
  {
    if schema == [] then {} else NameSet(schema[..|schema| - 1]) + {schema[|schema| - 1].name}
  }

  /** What an expanded card shows below its header. */
  datatype Body = Body(description: string, examples: seq<string>, entities: Option<seq<string>>)

  /** One card: the name, description and example count always; the body
      only when expanded. */
  datatype Card = Card(name: string, description: string, exampleCount: nat, body: Option<Body>)

  function CardOf(d: IntentDefinition, expanded: set<string>): (c: Card)
    ensures c.name == d.name && c.exampleCount == |d.examples|
    ensures c.body.Some? <==> d.name in expanded
    ensures c.body.Some? ==> c.body.value.examples == d.examples
    ensures c.body.Some? ==> (c.body.value.entities.Some? <==> |d.entities| > 0)
    ensures c.body.Some? && c.body.value.entities.Some? ==> c.body.value.entities.value == d.entities
  {
    Card(d.name, d.description, |d.examples|,
      if d.name in expanded
      then Some(Body(d.description, d.examples, if |d.entities| > 0 then Some(d.entities) else None))
      else None)
  }

  function Cards(expanded: set<string>): (cards: seq<Card>)
    ensures |cards| == |IntentSchema|
    ensures forall i :: 0 <= i < |cards| ==> cards[i] == CardOf(IntentSchema[i], expanded)
  {
    seq(|IntentSchema|, i requires 0 <= i < |IntentSchema| => CardOf(IntentSchema[i], expanded))
  }

  class IntentSchemaTab {
    var expanded: set<string>

    constructor ()
      ensures expanded == {}
    {
      expanded := {};
    }

    method ToggleIntent(name: string)
      modifies this
      ensures expanded == Toggled(old(expanded), name)
    {
      var next := expanded;
      if name in next {
        next := next - {name};
      } else {
        next := next + {name};
      }
      expanded := next;
    }

    method ExpandAll()
      modifies this
      ensures expanded == NameSet(IntentSchema)
    {
      expanded := NameSet(IntentSchema);
    }

    method CollapseAll()
      modifies this
      ensures expanded == {}
    {
      expanded := {};
    }

    function Shown(): seq<Card>
      reads this
    {
      Cards(expanded)
    }
  }

  /** After "Expand All" every card shows its body; after "Collapse All"
      none does. */
  lemma ExpandAllOpensEveryCard(i: nat)
    requires i < |IntentSchema|
    ensures Cards(NameSet(IntentSchema))[i].body.Some?
    ensures Cards({})[i].body.None?
  {
  }

  /** Clicking card `i` opens or closes that card alone: every other card
      keeps its state. */
  lemma ToggleAffectsOneCard(expanded: set<string>, i: nat, j: nat)
    requires i < |IntentSchema| && j < |IntentSchema|
    ensures var before := Cards(expanded);
            var after := Cards(Toggled(expanded, IntentSchema[i].name));
            && (after[i].body.Some? <==> before[i].body.None?)
            && (j != i ==> after[j] == before[j])
  {
    if i < j {
      SchemaNamesDistinct(i, j);
    } else if j < i {
      SchemaNamesDistinct(j, i);
    }
  }

  /** Only the farewell definition (the second) lists no entities. */
  lemma OnlyFarewellHasNoEntities(i: nat)
    requires i < |IntentSchema|
    ensures |IntentSchema[i].entities| == 0 <==> i == 1
  {
    if i == 0 {} else if i == 1 {} else if i == 2 {} else if i == 3 {} else if i == 4 {}
    else if i == 5 {} else if i == 6 {} else if i == 7 {} else if i == 8 {} else {}
  }

  /** Among the expanded cards, only the farewell card lacks the entities
      block. */
  lemma OnlyFarewellLacksEntities(expanded: set<string>, i: nat)
    requires i < |IntentSchema| && IntentSchema[i].name in expanded
    ensures Cards(expanded)[i].body.Some?
    ensures Cards(expanded)[i].body.value.entities.None? <==> i == 1
  {
    OnlyFarewellHasNoEntities(i);
  }
}
