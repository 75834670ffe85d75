/**
 * Bookkeeping for animated values and the syntax-tree helpers of the
 * animation linter (lib/util/animation.js).
 */
module Animation {
  import opened Wrappers

  // ---------------------------------------------------------------------------
  // Syntax-tree nodes
  // ---------------------------------------------------------------------------

  /**
   * The part of a parsed syntax-tree node that the helpers read. The host
   * parser builds untyped objects; only these five properties are ever
   * looked at, and `None` stands for a property that is absent (`undefined`)
   * or `null`. A node object itself is always truthy.
   */
  datatype Node = Node(
    name: Option<string>,
    target: Option<Node>,      // the node's `object` property
    property: Option<Node>,
    expression: Option<Node>,
    callee: Option<Node>)

  /** The child-valued properties a helper may step through. */
  datatype Field = Object | Property | Expression | Callee

  function Child(n: Node, f: Field): Option<Node>
  {
    match f
    case Object => n.target
    case Property => n.property
    case Expression => n.expression
    case Callee => n.callee
  }

  /**
   * Reference reading of a property chain: steps through `path` one field at
   * a time and stops at the first missing link, the way each helper guards
   * `a && a.b && a.b.c`.
   */
  function Follow(n: Option<Node>, path: seq<Field>): Option<Node>
    decreases |path|
  {
    if path == [] then n
    else match n
      case None => None
      case Some(m) => Follow(Child(m, path[0]), path[1..])
  }

  /** The `name` found at the end of a property chain, `None` if any link is missing. */
  function NameAt(n: Option<Node>, path: seq<Field>): Option<string>
  {
    match Follow(n, path)
    case None => None
    case Some(m) => m.name
  }

  /** Following a concatenated path is following its two halves in turn. */
  lemma {:induction false} FollowAppend(n: Option<Node>, p: seq<Field>, q: seq<Field>)
    ensures Follow(n, p + q) == Follow(Follow(n, p), q)
    decreases |p|
  {
    if p == [] {
      assert p + q == q;
    } else if n.Some? {
      assert (p + q)[0] == p[0];
      assert (p + q)[1..] == p[1..] + q;
      FollowAppend(Child(n.value, p[0]), p[1..], q);
    }
  }

  const AnimatedName := "Animated"
  const ValueName := "Value"
  const StopAnimationName := "stopAnimation"

  /** The chain a teardown statement `<owner>.<slot>.stopAnimation();` is tested on. */
  const TeardownPath: seq<Field> := [Expression, Callee, Property]

  /** The chain whose name is the torn-down slot. */
  const SlotPath: seq<Field> := [Expression, Callee, Object, Property]

  // ---------------------------------------------------------------------------
  // astHelpers
  // ---------------------------------------------------------------------------

  /** `_containsAnimate`: the node exists and its `object` is named `Animated`. */
  function ContainsAnimate(node: Option<Node>): (r: bool)
    ensures r <==> NameAt(node, [Object]) == Some(AnimatedName)
  {
    node.Some? && node.value.target.Some? && node.value.target.value.name == Some(AnimatedName)
  }

  /** `_containsAnimateValue`: the node exists and its `property` is named `Value`. */
  function ContainsAnimateValue(node: Option<Node>): (r: bool)
    ensures r <==> NameAt(node, [Property]) == Some(ValueName)
  {
    node.Some? && node.value.property.Some? && node.value.property.value.name == Some(ValueName)
  }

  /** `isAnimationDeclaration`: the node is the member access `Animated.Value`. */
  function IsAnimationDeclaration(node: Option<Node>): (r: bool)
    ensures r ==> node.Some?
    ensures r <==> NameAt(node, [Object]) == Some(AnimatedName) && NameAt(node, [Property]) == Some(ValueName)
  {
    ContainsAnimate(node) && ContainsAnimateValue(node)
  }

  /**
   * `isAnimationTeardown`: the statement's expression is a call whose callee
   * ends in a property named `stopAnimation`. Every missing link gives false.
   */
  function IsAnimationTeardown(node: Node): (r: bool)
    ensures r <==> NameAt(Some(node), TeardownPath) == Some(StopAnimationName)
  {
    && node.expression.Some?
    && node.expression.value.callee.Some?
    && node.expression.value.callee.value.property.Some?
    && node.expression.value.callee.value.property.value.name == Some(StopAnimationName)
  }

  /** The error JavaScript throws when a property is read off `undefined`. */
  datatype TypeError = CannotReadProperty(propertyName: string)

  /**
   * `getAnimationVariable`: reads `node.expression.callee.object.property.name`
   * with no guard, so a missing link before `name` throws; a present
   * property node without a name yields `undefined`.
   */
  function GetAnimationVariable(node: Node): (r: Result<Option<string>, TypeError>)
    ensures r.Success? <==> Follow(Some(node), SlotPath).Some?
    ensures r.Success? ==> r.value == NameAt(Some(node), SlotPath)
  {
    match node.expression
    case None => Failure(CannotReadProperty("callee"))
    case Some(expression) =>
      match expression.callee
      case None => Failure(CannotReadProperty("object"))
      case Some(callee) =>
        match callee.target
        case None => Failure(CannotReadProperty("property"))
        case Some(owner) =>
          match owner.property
          case None => Failure(CannotReadProperty("name"))
          case Some(slot) => Success(slot.name)
  }

  /**
   * On a statement `isAnimationTeardown` accepts, the statement has an
   * `expression` with a `callee`, so `getAnimationVariable` can only fail
   * further down: it succeeds exactly when the callee's object exists and
   * has a `property`, and then yields that property's name.
   */
  lemma {:induction false} TeardownSlotDefined(node: Node)
    requires IsAnimationTeardown(node)
    ensures node.expression.Some? && node.expression.value.callee.Some?
    ensures var callee := node.expression.value.callee.value;
            && (GetAnimationVariable(node).Success? <==> callee.target.Some? && callee.target.value.property.Some?)
            && (GetAnimationVariable(node).Success? ==>
                  GetAnimationVariable(node).value == callee.target.value.property.value.name)
  {
    FollowAppend(Some(node), [Expression, Callee], [Object, Property]);
    assert [Expression, Callee] + [Object, Property] == SlotPath;
  }

  // Node shapes the host parser produces for the examples below.

  function Identifier(name: string): Node
  {
    Node(Some(name), None, None, None, None)
  }

  function MemberExpression(target: Node, property: Node): Node
  {
    Node(None, Some(target), Some(property), None, None)
  }

  function CallExpression(callee: Node): Node
  {
    Node(None, None, None, None, Some(callee))
  }

  function ExpressionStatement(expression: Node): Node
  {
    Node(None, None, None, Some(expression), None)
  }

  /** A statement without an `expression`, such as `var stopAnimation = 1;`. */
  const VariableDeclaration: Node := Node(None, None, None, None, None)

  /**
   * `Animated.Value` is a declaration, the statement wrapping
   * `Animated.OtherThing` is not, and neither is an absent node.
   */
  lemma DeclarationExamples()
    ensures IsAnimationDeclaration(Some(MemberExpression(Identifier("Animated"), Identifier("Value"))))
    ensures !IsAnimationDeclaration(Some(ExpressionStatement(
              MemberExpression(Identifier("Animated"), Identifier("OtherThing")))))
    ensures !IsAnimationDeclaration(Some(MemberExpression(Identifier("Animated"), Identifier("OtherThing"))))
    ensures !IsAnimationDeclaration(None)
  {
  }

  /**
   * `<owner>.<slot>.stopAnimation();` (for instance `this.state.color.stopAnimation();`)
   * is a teardown of `slot`, and `var stopAnimation = 1;` is no teardown.
   */
  lemma StateSlotTeardown(owner: Node, slot: string)
    ensures var statement := ExpressionStatement(CallExpression(
              MemberExpression(MemberExpression(owner, Identifier(slot)), Identifier("stopAnimation"))));
            IsAnimationTeardown(statement) && GetAnimationVariable(statement) == Success(Some(slot))
    ensures !IsAnimationTeardown(VariableDeclaration)
  {
  }

  /**
   * A teardown through a local alias, `color.stopAnimation();`, is accepted by
   * `isAnimationTeardown`, but `getAnimationVariable` throws on it: the
   * identifier `color` has no `property`.
   */
  lemma AliasTeardownThrows(alias: string)
    ensures var statement := ExpressionStatement(CallExpression(
              MemberExpression(Identifier(alias), Identifier("stopAnimation"))));
            IsAnimationTeardown(statement) && GetAnimationVariable(statement) == Failure(CannotReadProperty("name"))
  {
  }

  // ---------------------------------------------------------------------------
  // AnimatedVariables and Teardowns
  // ---------------------------------------------------------------------------

  /** `collection[componentId] || []`: a component's list, empty when it has none. */
  function ListOf(m: map<string, seq<string>>, componentId: string): seq<string>
  {
    if componentId in m then m[componentId] else []
  }

  /**
   * The collection after `register(componentId, name)`: that component's
   * list gains `name` at its end, every other component keeps its list, and
   * the number of components grows by one exactly when the component is new.
   */
  function Registered(m: map<string, seq<string>>, componentId: string, name: string): (r: map<string, seq<string>>)
    ensures componentId in r && r[componentId] == ListOf(m, componentId) + [name]
    ensures forall c :: c != componentId ==> (c in r <==> c in m)
    ensures forall c :: c in m && c != componentId ==> r[c] == m[c]
    ensures |r| == if componentId in m then |m| else |m| + 1
  {
    m[componentId := ListOf(m, componentId) + [name]]
  }

  /** Registering the same name twice keeps both entries: there is no de-duplication. */
  lemma RegisterKeepsDuplicates(m: map<string, seq<string>>, componentId: string, name: string)
    ensures Registered(Registered(m, componentId, name), componentId, name)[componentId]
         == ListOf(m, componentId) + [name, name]
  {
  }

  /** All animated variables found in the code, keyed by component. */
  class AnimatedVariables {
    var variables: map<string, seq<string>>

    constructor ()
      ensures variables == map[]
    {
      variables := map[];
    }

    method Register(componentId: string, variableName: string)
      modifies this
      ensures variables == Registered(old(variables), componentId, variableName)
    {
      var list := ListOf(variables, componentId);
      list := list + [variableName];
      variables := variables[componentId := list];
    }
  }

  /** All animation teardowns found in the code, keyed by component. */
  class Teardowns {
    var teardowns: map<string, seq<string>>

    constructor ()
      ensures teardowns == map[]
    {
      teardowns := map[];
    }

    method Register(componentId: string, key: string)
      modifies this
      ensures teardowns == Registered(old(teardowns), componentId, key)
    {
      var list := ListOf(teardowns, componentId);
      list := list + [key];
      teardowns := teardowns[componentId := list];
    }
  }

  /**
   * Two registrations for two components, on each collection: the number of
   * component keys goes 0, 1, 2.
   */
  method RegisterTwoComponents() returns (counts: seq<nat>)
    ensures counts == [0, 1, 2, 0, 1, 2]
  {
    var animated := new AnimatedVariables();
    counts := [|animated.variables|];
    animated.Register("component-foo", "color");
    counts := counts + [|animated.variables|];
    animated.Register("component-bar", "size");
    counts := counts + [|animated.variables|];

    var teardowns := new Teardowns();
    counts := counts + [|teardowns.teardowns|];
    teardowns.Register("component-foo", "color");
    counts := counts + [|teardowns.teardowns|];
    teardowns.Register("component-bar", "size");
    counts := counts + [|teardowns.teardowns|];
  }
}
