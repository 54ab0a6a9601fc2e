/** The row filter built from the data rules of a user's roles, and what it lets through. */
module DataPermission {
  import opened Prelude
  import opened Text

  // ---------------------------------------------------------------- filter expressions

  /** SQL truth: a comparison with NULL is neither true nor false. */
  datatype Truth = True | False | Unknown

  datatype Comparison = Eq | Ne | Gt | Ge | Lt | Le

  datatype Value = Single(text: string) | Several(items: seq<string>)

  /** A test on one column of a row. */
  datatype Test =
    | Compare(model: string, column: string, comparison: Comparison, value: Value)
    | In(model: string, column: string, values: seq<string>)

  datatype Expr = Always | Holds(test: Test) | Not(e: Expr) | And(es: seq<Expr>) | Or(es: seq<Expr>)

  /** What the database stores in a column. */
  type Datum(==, !new)

  /** The columns of a row by model and name; None is NULL. */
  type Row = (string, string) -> Option<Datum>

  /** How the database reads the texts of rules for a column, and how it orders what it stores. */
  datatype Database = Database(
    literal: (string, string, Value) -> Datum,
    item: (string, string, string) -> Datum,
    below: (Datum, Datum) -> bool)

  predicate Compared(v: Datum, comparison: Comparison, x: Datum, db: Database) {
    match comparison
    case Eq => v == x
    case Ne => v != x
    case Gt => db.below(x, v)
    case Ge => db.below(x, v) || v == x
    case Lt => db.below(v, x)
    case Le => db.below(v, x) || v == x
  }

  function TruthOf(b: bool): Truth {
    if b then True else False
  }

  /** Nothing is in an empty list, NULL included. */
  function TestTruth(test: Test, row: Row, db: Database): Truth {
    match test
    case Compare(m, c, comparison, value) =>
      (match row(m, c)
       case None => Unknown
       case Some(v) => TruthOf(Compared(v, comparison, db.literal(m, c, value), db)))
    case In(m, c, values) =>
      if values == [] then False
      else
        match row(m, c)
        case None => Unknown
        case Some(v) => TruthOf(exists item :: item in values && db.item(m, c, item) == v)
  }

  function Negate(t: Truth): Truth {
    match t
    case True => False
    case False => True
    case Unknown => Unknown
  }

  function Both(a: Truth, b: Truth): Truth {
    if a.False? || b.False? then False else if a.True? && b.True? then True else Unknown
  }

  function Evaluate(e: Expr, row: Row, db: Database): Truth
    decreases e
  {
    match e
    case Always => True
    case Holds(test) => TestTruth(test, row, db)
    case Not(inner) => Negate(Evaluate(inner, row, db))
    case And(es) => EvaluateAll(es, row, db)
    case Or(es) => EvaluateAny(es, row, db)
  }

  function EvaluateAll(es: seq<Expr>, row: Row, db: Database): Truth
    decreases es
  {
    if es == [] then True else Both(Evaluate(es[0], row, db), EvaluateAll(es[1..], row, db))
  }

  /** One of two holds unless both negations do. */
  function EvaluateAny(es: seq<Expr>, row: Row, db: Database): Truth
    decreases es
  {
    if es == [] then False
    else Negate(Both(Negate(Evaluate(es[0], row, db)), Negate(EvaluateAny(es[1..], row, db))))
  }

  /** A row passes a filter that is true of it. */
  predicate Passes(e: Expr, row: Row, db: Database) {
    Evaluate(e, row, db).True?
  }

  lemma {:induction false} AllTrueIff(es: seq<Expr>, row: Row, db: Database)
    ensures EvaluateAll(es, row, db).True? <==> forall e :: e in es ==> Passes(e, row, db)
  {
    if es != [] {
      AllTrueIff(es[1..], row, db);
      assert es == [es[0]] + es[1..];
      assert EvaluateAll(es, row, db).True? <==> Passes(es[0], row, db) && EvaluateAll(es[1..], row, db).True?;
      assert forall e :: e in es <==> e == es[0] || e in es[1..];
    }
  }

  lemma {:induction false} AnyTrueIff(es: seq<Expr>, row: Row, db: Database)
    ensures EvaluateAny(es, row, db).True? <==> exists e :: e in es && Passes(e, row, db)
  {
    if es != [] {
      AnyTrueIff(es[1..], row, db);
      assert es == [es[0]] + es[1..];
      assert EvaluateAny(es, row, db).True? <==> Passes(es[0], row, db) || EvaluateAny(es[1..], row, db).True?;
      assert forall e :: e in es <==> e == es[0] || e in es[1..];
    }
  }

  // ---------------------------------------------------------------- rules

  datatype Rule = Rule(id: int, model: string, column: string, expression: int, operator: int, value: Value)

  datatype User = User(superuser: bool, roles: seq<seq<Rule>>)

  /** The models that rules may name, with their columns, and the columns that rules may not name. */
  datatype Config = Config(models: map<string, seq<string>>, excluded: set<string>)

  datatype NotFound = NoSuchModel | NoSuchColumn

  predicate KnownModel(rule: Rule, config: Config) {
    rule.model in config.models
  }

  predicate KnownColumn(rule: Rule, config: Config)
    requires KnownModel(rule, config)
  {
    rule.column in config.models[rule.model] && rule.column !in config.excluded
  }

  predicate Known(rule: Rule, config: Config) {
    KnownModel(rule, config) && KnownColumn(rule, config)
  }

  function ValuesOf(value: Value): seq<string> {
    match value
    case Single(text) => Split(text, ',')
    case Several(items) => items
  }

  /** The condition of a rule; a rule with another expression number has none. */
  function ConditionOf(rule: Rule): Option<Expr> {
    match rule.expression
    case 0 => Some(Holds(Compare(rule.model, rule.column, Eq, rule.value)))
    case 1 => Some(Holds(Compare(rule.model, rule.column, Ne, rule.value)))
    case 2 => Some(Holds(Compare(rule.model, rule.column, Gt, rule.value)))
    case 3 => Some(Holds(Compare(rule.model, rule.column, Ge, rule.value)))
    case 4 => Some(Holds(Compare(rule.model, rule.column, Lt, rule.value)))
    case 5 => Some(Holds(Compare(rule.model, rule.column, Le, rule.value)))
    case 6 => Some(Holds(In(rule.model, rule.column, ValuesOf(rule.value))))
    case 7 => Some(Not(Holds(In(rule.model, rule.column, ValuesOf(rule.value)))))
    case _ => None
  }

  const AND := 0
  const OR := 1

  predicate HasRule(user: User, rule: Rule) {
    exists i :: 0 <= i < |user.roles| && rule in user.roles[i]
  }

  /** The rule adds a condition to the list of its operator. */
  predicate Contributes(rule: Rule, operator: int) {
    rule.operator == operator && ConditionOf(rule).Some?
  }

  // ---------------------------------------------------------------- what a rule says of a row

  /** One of the eight expressions, under the operator. */
  predicate Speaks(rule: Rule, operator: int) {
    rule.operator == operator && 0 <= rule.expression <= 7
  }

  /** The value of a rule lists the item: it is one of several, or it stands between commas. */
  ghost predicate Lists(value: Value, item: string) {
    match value
    case Single(text) => IsItem(text, ',', item)
    case Several(items) => item in items
  }

  /** The column of the row holds one of the values the rule lists. */
  ghost predicate HoldsListed(rule: Rule, row: Row, db: Database) {
    exists item :: Lists(rule.value, item)
                   && row(rule.model, rule.column) == Some(db.item(rule.model, rule.column, item))
  }

  /** A rule admits a row by what the rule's column holds; of the rules only "not in" an empty list admits NULL. */
  ghost predicate Admits(rule: Rule, row: Row, db: Database) {
    var v, x := row(rule.model, rule.column), db.literal(rule.model, rule.column, rule.value);
    match rule.expression
    case 0 => v == Some(x)
    case 1 => v.Some? && v.value != x
    case 2 => v.Some? && db.below(x, v.value)
    case 3 => v.Some? && (db.below(x, v.value) || v.value == x)
    case 4 => v.Some? && db.below(v.value, x)
    case 5 => v.Some? && (db.below(v.value, x) || v.value == x)
    case 6 => HoldsListed(rule, row, db)
    case 7 => !HoldsListed(rule, row, db) && (v.Some? || forall item :: !Lists(rule.value, item))
    case _ => false
  }

  lemma ValuesAreListed(value: Value)
    ensures forall item :: item in ValuesOf(value) <==> Lists(value, item)
    ensures ValuesOf(value) == [] <==> forall item :: !Lists(value, item)
  {
    if value.Single? {
      forall item ensures item in ValuesOf(value) <==> Lists(value, item) {
        SplitItems(value.text, ',', item);
      }
    }
    if ValuesOf(value) != [] {
      assert ValuesOf(value)[0] in ValuesOf(value);
    }
  }

  /** The condition of a rule is true of the rows that the rule admits. */
  lemma ConditionMeaning(rule: Rule, row: Row, db: Database)
    ensures ConditionOf(rule).Some? <==> 0 <= rule.expression <= 7
    ensures ConditionOf(rule).Some? ==> (Passes(ConditionOf(rule).value, row, db) <==> Admits(rule, row, db))
  {
    if rule.expression == 6 || rule.expression == 7 {
      ValuesAreListed(rule.value);
      ListTruth(rule, row, db);
      var listed := Holds(In(rule.model, rule.column, ValuesOf(rule.value)));
      assert Evaluate(listed, row, db) == TestTruth(listed.test, row, db);
      assert Evaluate(Not(listed), row, db) == Negate(Evaluate(listed, row, db));
    }
  }

  lemma ListTruth(rule: Rule, row: Row, db: Database)
    ensures var values := ValuesOf(rule.value);
            TestTruth(In(rule.model, rule.column, values), row, db)
            == if HoldsListed(rule, row, db) then True
               else if row(rule.model, rule.column).Some? || values == [] then False else Unknown
  {
    ValuesAreListed(rule.value);
  }

  // ---------------------------------------------------------------- the builder

  /** The conditions of the first n rules under an operator, in rule order. */
  function Conditions(rules: seq<Rule>, n: nat, operator: int): seq<Expr>
    requires n <= |rules|
  {
    if n == 0 then []
    else if Contributes(rules[n - 1], operator) then
      Conditions(rules, n - 1, operator) + [ConditionOf(rules[n - 1]).value]
    else Conditions(rules, n - 1, operator)
  }

  lemma {:induction false} ConditionsAre(rules: seq<Rule>, n: nat, operator: int, e: Expr)
    requires n <= |rules|
    ensures e in Conditions(rules, n, operator) <==>
            exists rule :: rule in rules[..n] && Contributes(rule, operator) && ConditionOf(rule).value == e
  {
    if n > 0 {
      ConditionsAre(rules, n - 1, operator, e);
      assert rules[..n] == rules[..n - 1] + [rules[n - 1]];
    }
  }

  /** The rules of all roles, each once, where it first occurs. */
  method UserRules(user: User) returns (rules: seq<Rule>)
    ensures forall rule :: rule in rules <==> HasRule(user, rule)
    ensures forall i, j :: 0 <= i < j < |rules| ==> rules[i] != rules[j]
  {
    rules := [];
    for i := 0 to |user.roles|
      invariant forall rule :: rule in rules <==> exists k :: 0 <= k < i && rule in user.roles[k]
      invariant forall a, b :: 0 <= a < b < |rules| ==> rules[a] != rules[b]
    {
      var role := user.roles[i];
      for j := 0 to |role|
        invariant forall rule :: rule in rules <==> rule in role[..j] || exists k :: 0 <= k < i && rule in user.roles[k]
        invariant forall a, b :: 0 <= a < b < |rules| ==> rules[a] != rules[b]
      {
        if role[j] !in rules {
          rules := rules + [role[j]];
        }
      }
      assert role[..|role|] == role;
    }
  }

  /** The filter made of the two lists. */
  function Combined(ands: seq<Expr>, ors: seq<Expr>): Expr {
    var both := (if ands != [] then [And(ands)] else []) + (if ors != [] then [Or(ors)] else []);
    if both != [] then Or(both) else Always
  }

  lemma CombinedPassesIff(ands: seq<Expr>, ors: seq<Expr>, row: Row, db: Database)
    ensures Passes(Combined(ands, ors), row, db) <==>
            || (ands == [] && ors == [])
            || (ands != [] && forall e :: e in ands ==> Passes(e, row, db))
            || (exists e :: e in ors && Passes(e, row, db))
  {
    AllTrueIff(ands, row, db);
    AnyTrueIff(ors, row, db);
    var both := (if ands != [] then [And(ands)] else []) + (if ors != [] then [Or(ors)] else []);
    AnyTrueIff(both, row, db);
    assert forall e :: e in both <==> (ands != [] && e == And(ands)) || (ors != [] && e == Or(ors));
    assert Evaluate(And(ands), row, db) == EvaluateAll(ands, row, db);
    assert Evaluate(Or(ors), row, db) == EvaluateAny(ors, row, db);
  }

  /**
   What the filter of a user is meant to let through, in terms of the user's rules alone: operator 0 asks for
   all of its rules, operator 1 for one.
   */
  ghost predicate MayPass(user: User, row: Row, db: Database) {
    || user.superuser
    || (forall rule :: HasRule(user, rule) ==> !Speaks(rule, 0) && !Speaks(rule, 1))
    || ((exists rule :: HasRule(user, rule) && Speaks(rule, 0))
        && forall rule :: HasRule(user, rule) && Speaks(rule, 0) ==> Admits(rule, row, db))
    || (exists rule :: HasRule(user, rule) && Speaks(rule, 1) && Admits(rule, row, db))
  }

  /** Two loops over the rules: check and collect, then combine. */
  method FilterDataPermission(user: User, config: Config) returns (filter: Result<Expr, NotFound>)
    ensures filter.Err? <==> !user.superuser && exists rule :: HasRule(user, rule) && !Known(rule, config)
    ensures filter == Err(NoSuchModel) ==> exists rule :: HasRule(user, rule) && !KnownModel(rule, config)
    ensures filter == Err(NoSuchColumn) ==>
              exists rule :: HasRule(user, rule) && KnownModel(rule, config) && !KnownColumn(rule, config)
    ensures filter.Ok? ==> forall row, db :: Passes(filter.value, row, db) <==> MayPass(user, row, db)
  {
    var rules := UserRules(user);
    if user.superuser || rules == [] {
      return Ok(Always);
    }
    var ands, ors: seq<Expr> := [], [];
    for i := 0 to |rules|
      invariant forall k :: 0 <= k < i ==> Known(rules[k], config)
      invariant ands == Conditions(rules, i, AND) && ors == Conditions(rules, i, OR)
    {
      var rule := rules[i];
      if rule.model !in config.models {
        assert HasRule(user, rule) && !Known(rule, config);
        return Err(NoSuchModel);
      }
      if rule.column !in config.models[rule.model] || rule.column in config.excluded {
        assert HasRule(user, rule) && !Known(rule, config);
        return Err(NoSuchColumn);
      }
      var condition := ConditionOf(rule);
      if condition.Some? {
        if rule.operator == AND {
          ands := ands + [condition.value];
        } else if rule.operator == OR {
          ors := ors + [condition.value];
        }
      }
    }
    filter := Ok(Combined(ands, ors));
    forall row, db ensures Passes(filter.value, row, db) <==> MayPass(user, row, db) {
      FilterMeaning(user, rules, row, db);
    }
  }

  lemma FilterMeaning(user: User, rules: seq<Rule>, row: Row, db: Database)
    requires !user.superuser && forall rule :: rule in rules <==> HasRule(user, rule)
    ensures Passes(Combined(Conditions(rules, |rules|, AND), Conditions(rules, |rules|, OR)), row, db)
       <==> MayPass(user, row, db)
  {
    var ands, ors := Conditions(rules, |rules|, AND), Conditions(rules, |rules|, OR);
    CombinedPassesIff(ands, ors, row, db);
    ListMeaning(user, rules, AND, row, db);
    ListMeaning(user, rules, OR, row, db);
  }

  /** The list of an operator holds the conditions of the user's rules under it, which say what the rules say. */
  lemma ListMeaning(user: User, rules: seq<Rule>, operator: int, row: Row, db: Database)
    requires forall rule :: rule in rules <==> HasRule(user, rule)
    ensures var list := Conditions(rules, |rules|, operator);
            && (list == [] <==> forall rule :: HasRule(user, rule) ==> !Speaks(rule, operator))
            && ((forall e :: e in list ==> Passes(e, row, db))
                <==> forall rule :: HasRule(user, rule) && Speaks(rule, operator) ==> Admits(rule, row, db))
            && ((exists e :: e in list && Passes(e, row, db))
                <==> exists rule :: HasRule(user, rule) && Speaks(rule, operator) && Admits(rule, row, db))
  {
    var list := Conditions(rules, |rules|, operator);
    assert rules[..|rules|] == rules;
    forall e
      ensures e in list <==>
                exists rule :: rule in rules && Contributes(rule, operator) && ConditionOf(rule).value == e
    {
      ConditionsAre(rules, |rules|, operator, e);
    }
    forall rule
      ensures Contributes(rule, operator) <==> Speaks(rule, operator)
      ensures ConditionOf(rule).Some? ==> (Passes(ConditionOf(rule).value, row, db) <==> Admits(rule, row, db))
    {
      ConditionMeaning(rule, row, db);
    }
    forall rule | HasRule(user, rule) && Speaks(rule, operator) ensures ConditionOf(rule).value in list {
      assert rule in rules;
    }
    if list != [] {
      assert list[0] in list;
    }
  }

  // ---------------------------------------------------------------- order and repetition

  /** The filter's meaning depends on nothing but which rules there are. */
  lemma SameRulesSameFilter(user: User, other: User, row: Row, db: Database)
    requires user.superuser == other.superuser && forall rule :: HasRule(user, rule) <==> HasRule(other, rule)
    ensures MayPass(user, row, db) <==> MayPass(other, row, db)
  {
  }

  lemma SameRolesSameRule(user: User, other: User, rule: Rule)
    requires forall role :: role in user.roles <==> role in other.roles
    ensures HasRule(user, rule) <==> HasRule(other, rule)
  {
    forall i | 0 <= i < |user.roles| && rule in user.roles[i] ensures HasRule(other, rule) {
      assert user.roles[i] in other.roles;
    }
    forall i | 0 <= i < |other.roles| && rule in other.roles[i] ensures HasRule(user, rule) {
      assert other.roles[i] in user.roles;
    }
  }

  /** Reordering the roles, or having a role twice, gives the same rules, and the same rows pass. */
  lemma RolesAsASet(user: User, other: User, row: Row, db: Database)
    requires user.superuser == other.superuser && forall role :: role in user.roles <==> role in other.roles
    ensures forall rule :: HasRule(user, rule) <==> HasRule(other, rule)
    ensures MayPass(user, row, db) <==> MayPass(other, row, db)
  {
    forall rule ensures HasRule(user, rule) <==> HasRule(other, rule) {
      SameRolesSameRule(user, other, rule);
    }
    SameRulesSameFilter(user, other, row, db);
  }
}
