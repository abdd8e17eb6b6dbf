/** The fixed category list of src/constants/categories.ts and its two
  * queries. */
module Categories {
  import opened Grouping

  /** A category option; `name` is the option's `label`. */
  datatype CategoryOption = CategoryOption(name: string, group: string)

  const INVESTMENTS: string := "Investimentos"
  const INCOME: string := "Receitas"
  const EXPENSES: string := "Despesas"

  /** `CATEGORY_GROUPS`, in declaration order. */
  const CATEGORY_GROUPS: seq<string> := [INVESTMENTS, INCOME, EXPENSES]

  const INVESTMENT_OPTIONS: seq<CategoryOption> := [
    CategoryOption("Fundos de investimento", INVESTMENTS),
    CategoryOption("Tesouro Direto", INVESTMENTS),
    CategoryOption("Previdência Privada", INVESTMENTS),
    CategoryOption("Bolsa de Valores", INVESTMENTS),
    CategoryOption("Criptomoedas", INVESTMENTS),
    CategoryOption("CDB / RDB", INVESTMENTS),
    CategoryOption("FII", INVESTMENTS),
    CategoryOption("ETFs", INVESTMENTS)
  ]

  const INCOME_OPTIONS: seq<CategoryOption> := [
    CategoryOption("Salário", INCOME),
    CategoryOption("Renda Extra", INCOME)
  ]

  const EXPENSE_OPTIONS: seq<CategoryOption> := [
    CategoryOption("Alimentação", EXPENSES),
    CategoryOption("Transporte", EXPENSES),
    CategoryOption("Saúde", EXPENSES),
    CategoryOption("Educação", EXPENSES),
    CategoryOption("Lazer", EXPENSES),
    CategoryOption("Moradia", EXPENSES)
  ]

  /** `CATEGORY_OPTIONS`: the three groups' options one after the other. */
  const CATEGORY_OPTIONS: seq<CategoryOption> := INVESTMENT_OPTIONS + INCOME_OPTIONS + EXPENSE_OPTIONS

  function GroupOf(o: CategoryOption): string { o.group }

  function NameOf(o: CategoryOption): string { o.name }

  function InGroup(group: string): CategoryOption -> bool
  {
    (o: CategoryOption) => o.group == group
  }

  /** Every option of `block` belongs to `group`. */
  predicate AllIn(block: seq<CategoryOption>, group: string)
  {
    forall i :: 0 <= i < |block| ==> block[i].group == group
  }

  /** `getCategoriesByGroup(group)` */
  function CategoriesByGroup(group: string): (r: seq<CategoryOption>)
    ensures IsSubsequence(r, CATEGORY_OPTIONS)
    ensures forall o :: o in r <==> o in CATEGORY_OPTIONS && o.group == group
  {
    FilterIsSubsequence(CATEGORY_OPTIONS, InGroup(group));
    Filter(CATEGORY_OPTIONS, InGroup(group))
  }

  /** The three declared blocks each hold options of their own group only. */
  lemma BlocksInGroups()
    ensures AllIn(INVESTMENT_OPTIONS, INVESTMENTS) && AllIn(INCOME_OPTIONS, INCOME) && AllIn(EXPENSE_OPTIONS, EXPENSES)
  {
  }

  lemma {:induction false} BlockFilter(block: seq<CategoryOption>, own: string, group: string)
    requires AllIn(block, own)
    ensures Filter(block, InGroup(group)) == if group == own then block else []
  {
    if group == own {
      FilterAll(block, InGroup(group));
    } else {
      FilterNone(block, InGroup(group));
    }
  }

  /** Filtering three one-group blocks by a group keeps the blocks of that
    * group whole and drops the others. */
  lemma {:induction false} ThreeBlocksFilter(a: seq<CategoryOption>, b: seq<CategoryOption>, c: seq<CategoryOption>,
                                             ga: string, gb: string, gc: string, group: string)
    requires AllIn(a, ga) && AllIn(b, gb) && AllIn(c, gc)
    ensures Filter(a + b + c, InGroup(group)) ==
      (if group == ga then a else []) + (if group == gb then b else []) + (if group == gc then c else [])
  {
    FilterAppend(a + b, c, InGroup(group));
    FilterAppend(a, b, InGroup(group));
    BlockFilter(a, ga, group);
    BlockFilter(b, gb, group);
    BlockFilter(c, gc, group);
  }

  /** Filtering the options by a group keeps the blocks of that group whole
    * and drops the others. */
  lemma {:induction false} ByGroupBlocks(group: string)
    ensures CategoriesByGroup(group) ==
      (if group == INVESTMENTS then INVESTMENT_OPTIONS else []) +
      (if group == INCOME then INCOME_OPTIONS else []) +
      (if group == EXPENSES then EXPENSE_OPTIONS else [])
  {
    BlocksInGroups();
    ThreeBlocksFilter(INVESTMENT_OPTIONS, INCOME_OPTIONS, EXPENSE_OPTIONS, INVESTMENTS, INCOME, EXPENSES, group);
  }

  /** Among three blocks of different groups, each group selects its own
    * block. */
  lemma {:induction false} ThreeBlocksOwn(a: seq<CategoryOption>, b: seq<CategoryOption>, c: seq<CategoryOption>,
                                          ga: string, gb: string, gc: string)
    requires AllIn(a, ga) && AllIn(b, gb) && AllIn(c, gc)
    requires ga != gb && ga != gc && gb != gc
    ensures Filter(a + b + c, InGroup(ga)) == a
    ensures Filter(a + b + c, InGroup(gb)) == b
    ensures Filter(a + b + c, InGroup(gc)) == c
  {
    ThreeBlocksFilter(a, b, c, ga, gb, gc, ga);
    assert a + [] + [] == a;
    ThreeBlocksFilter(a, b, c, ga, gb, gc, gb);
    assert [] + b + [] == b;
    ThreeBlocksFilter(a, b, c, ga, gb, gc, gc);
    assert [] + [] + c == c;
  }

  /** Each declared group selects exactly its own block. */
  lemma {:induction false} OwnBlocks()
    ensures CategoriesByGroup(INVESTMENTS) == INVESTMENT_OPTIONS
    ensures CategoriesByGroup(INCOME) == INCOME_OPTIONS
    ensures CategoriesByGroup(EXPENSES) == EXPENSE_OPTIONS
  {
    BlocksInGroups();
    assert INVESTMENTS[0] != INCOME[0] && INVESTMENTS[0] != EXPENSES[0] && INCOME[0] != EXPENSES[0];
    ThreeBlocksOwn(INVESTMENT_OPTIONS, INCOME_OPTIONS, EXPENSE_OPTIONS, INVESTMENTS, INCOME, EXPENSES);
  }

  /** The groups split the options: eight investment, two income and six
    * expense categories, sixteen in all, and no other group has any. */
  lemma {:induction false} OptionCounts(other: string)
    requires other !in CATEGORY_GROUPS
    ensures |CATEGORY_OPTIONS| == 16
    ensures |CategoriesByGroup(INVESTMENTS)| == 8
    ensures |CategoriesByGroup(INCOME)| == 2
    ensures |CategoriesByGroup(EXPENSES)| == 6
    ensures CategoriesByGroup(other) == []
    ensures CategoriesByGroup(INVESTMENTS) + CategoriesByGroup(INCOME) + CategoriesByGroup(EXPENSES) == CATEGORY_OPTIONS
  {
    OwnBlocks();
    ByGroupBlocks(other);
  }

  /** Every option belongs to one of the declared groups. */
  lemma {:induction false} GroupsDeclared()
    ensures forall o :: o in CATEGORY_OPTIONS ==> o.group in CATEGORY_GROUPS
  {
    BlocksInGroups();
  }

  /** `getCategoryGroups()`: the distinct groups in order of first use. */
  function CategoryGroups(): (r: seq<string>)
  {
    Dedup(Map(CATEGORY_OPTIONS, GroupOf))
  }

  /** `Map` distributes over concatenation. */
  lemma {:induction false} MapAppend<T, U>(a: seq<T>, b: seq<T>, f: T -> U)
    ensures Map(a + b, f) == Map(a, f) + Map(b, f)
  {
  }

  /** A block of one group, new to what precedes it, adds that group once. */
  lemma {:induction false} DedupBlock(a: seq<string>, b: seq<string>, g: string)
    requires b != [] && g !in a
    requires forall i :: 0 <= i < |b| ==> b[i] == g
    ensures Dedup(a + b) == Dedup(a) + [g]
    decreases |b|
  {
    var init := b[..|b| - 1];
    assert a + b == (a + init) + [g];
    if init == [] {
      assert a + init == a;
    } else {
      DedupBlock(a, init, g);
    }
  }

  /** The groups of a one-group block. */
  lemma {:induction false} MapInGroup(block: seq<CategoryOption>, g: string)
    requires AllIn(block, g)
    ensures |Map(block, GroupOf)| == |block|
    ensures forall i :: 0 <= i < |Map(block, GroupOf)| ==> Map(block, GroupOf)[i] == g
  {
  }

  /** Distinct groups in two runs, kept once each, in run order. */
  lemma {:induction false} TwoRuns(ma: seq<string>, mb: seq<string>, ga: string, gb: string)
    requires ma != [] && mb != [] && ga != gb
    requires forall i :: 0 <= i < |ma| ==> ma[i] == ga
    requires forall i :: 0 <= i < |mb| ==> mb[i] == gb
    ensures Dedup(ma + mb) == [ga, gb]
    ensures forall i :: 0 <= i < |ma + mb| ==> (ma + mb)[i] == ga || (ma + mb)[i] == gb
  {
    assert [] + ma == ma;
    DedupBlock([], ma, ga);
    DedupBlock(ma, mb, gb);
  }

  lemma {:induction false} ThreeRuns(ma: seq<string>, mb: seq<string>, mc: seq<string>, ga: string, gb: string, gc: string)
    requires ma != [] && mb != [] && mc != []
    requires ga != gb && ga != gc && gb != gc
    requires forall i :: 0 <= i < |ma| ==> ma[i] == ga
    requires forall i :: 0 <= i < |mb| ==> mb[i] == gb
    requires forall i :: 0 <= i < |mc| ==> mc[i] == gc
    ensures Dedup(ma + mb + mc) == [ga, gb, gc]
  {
    TwoRuns(ma, mb, ga, gb);
    DedupBlock(ma + mb, mc, gc);
  }

  /** Three non-empty blocks of three different groups show those groups,
    * in block order. */
  lemma {:induction false} ThreeBlocksGroups(a: seq<CategoryOption>, b: seq<CategoryOption>, c: seq<CategoryOption>,
                                             ga: string, gb: string, gc: string)
    requires a != [] && b != [] && c != []
    requires AllIn(a, ga) && AllIn(b, gb) && AllIn(c, gc)
    requires ga != gb && ga != gc && gb != gc
    ensures Dedup(Map(a + b + c, GroupOf)) == [ga, gb, gc]
  {
    MapAppend(a + b, c, GroupOf);
    MapAppend(a, b, GroupOf);
    MapInGroup(a, ga);
    MapInGroup(b, gb);
    MapInGroup(c, gc);
    ThreeRuns(Map(a, GroupOf), Map(b, GroupOf), Map(c, GroupOf), ga, gb, gc);
  }

  /** The groups in use are the three declared ones, in declaration order. */
  lemma {:induction false} GroupsInOrder()
    ensures CategoryGroups() == CATEGORY_GROUPS
  {
    BlocksInGroups();
    ThreeBlocksGroups(INVESTMENT_OPTIONS, INCOME_OPTIONS, EXPENSE_OPTIONS, INVESTMENTS, INCOME, EXPENSES);
  }

  /** No label is used twice. */
  lemma NamesDistinct()
    ensures forall i, j :: 0 <= i < j < |CATEGORY_OPTIONS| ==> CATEGORY_OPTIONS[i].name != CATEGORY_OPTIONS[j].name
  {
  }
}
