# JavaScript design patterns, modelled in Dafny

This project models the behavioural core of eleven small JavaScript design-pattern demos and
proves what each of them promises. One Dafny module covers each source file, and `Wrappers`
supplies `Option` and `Result`.

- **Interpreter** (`interpreter.dfy`): an arithmetic expression tree with `interpret`,
  `replace` and `copy`. Numbers are modelled as `real`.
- **Iterator** (`iterator.dfy`): a cursor over a fixed list whose `next` and `prev` stop at
  the ends. It comes with a collection that hands out one shared iterator.
- **Composite** (`composite.dfy`): sentences (leaves) and paragraphs (composites).
  `logText` walks the tree depth-first and surrounds every nested paragraph with `' '` lines.
  Paragraphs are heap objects with a footprint. A paragraph shared between two parents shows a
  `remove` or an added sentence in both parents' output, as the demo relies on. After a
  paragraph is added to an already nested paragraph, that paragraph's parents are no longer
  valid (see "Left out").
- **Facade** (`facade.dfy`): a bakery manager over an inventory, a baker and a cashier.
- **Decorator** (`decorator.dfy`): a text manager, and dunder and asterisk decorators that
  capture a decorated copy of the text and can strip the decoration again.
- **Strategy** (`strategy.dfy`): a search context. It picks the array, string or object
  search from the shape of its data.
- **Chain of responsibility** (`chain.dfy`): widgets pass an error up their successor chain
  until an error-handling composite takes it.
- **State** (`state.dfy`): a website whose banner depends on its guest or member state.
- **Singleton** (`singleton.dfy`): a closure-held text with a type-checked setter, and a
  lazily created single instance.
- **Visitor** (`visitor.dfy`): per-object increment operations on a number, a numeric string
  (through `parseInt` and `String`) and a list of numbers.
- **Abstract factory** (`abstractfactory.dfy`): greeter factories and a validating tone
  constructor.

Where the source updates objects in place, the model uses classes with `modifies` clauses. Pure
expression code becomes datatypes and functions. Every thrown error becomes an `Err`, a
`None` or a dedicated outcome constructor. Each demo ("Usage" section) is restated as a method,
or for the interpreter and the abstract factory as lemmas, whose postconditions give the values the demo computes. Some of
them also state values the demo does not print, such as `StateUsage`'s banner before any state and
`ChainUsage`'s reply to the second leaf.

The demo comments in `src/behavioral/visitor.js` (`// 5`, `// 5`, `// 1 2 3`) show the values
before the increments. The code itself logs `6`, `6` and `2 3 4`. `Visitor.VisitorUsage`
follows the code.

## Model

| member | source | states |
|---|---|---|
| Interpreter.Interpret | src/behavioral/interpreter.js:21-116 | the definition of `interpret` for the five node kinds: a number leaf gives its number, a binary node evaluates its left operand, then its right one, then applies its operator through `Apply`; its properties are the `Interpret…`, `NoDivisionNeverFails` and `FailureNeedsDivision` rows |
| Interpreter.Copy | src/behavioral/interpreter.js:34-123 | the definition of `copy`: every node is rebuilt from its copied children with the same operator, and a leaf with the same number; `CopyIsSameTree` and `CopyPreservesInterpret` state what it gives |
| Interpreter.Replace | src/behavioral/interpreter.js:28-120 | the definition of `replace(n, x)`: a leaf equal to `n` becomes a copy of `x`, any other leaf a copy of itself, and an interior node is rebuilt from its children's replacements; the `Replace…` rows state its properties |
| Interpreter.Apply | src/behavioral/interpreter.js:25-27 | an operand that fails makes the node fail; a node whose operands succeed fails only for a division by zero |
| Interpreter.InterpretNumber | src/behavioral/interpreter.js:112-114 | interpreting a number leaf gives its stored number |
| Interpreter.InterpretBinary | src/behavioral/interpreter.js:25-93 | a binary node applies `+`, `-`, `*` or `/` to its left then its right operand's values; division by a non-zero value divides |
| Interpreter.NoDivisionNeverFails | src/behavioral/interpreter.js:91-93 | a tree with no division node always evaluates to a number |
| Interpreter.FailureNeedsDivision | src/behavioral/interpreter.js:91-93 | a failing evaluation implies the tree contains a division |
| Interpreter.CopyIsSameTree | src/behavioral/interpreter.js:34-39 | `copy` gives a tree of the same shape, operators and leaf values |
| Interpreter.CopyPreservesInterpret | src/behavioral/interpreter.js:121-123 | a copy interprets to the same outcome as the original tree |
| Interpreter.ReplaceLeaves | src/behavioral/interpreter.js:115-120 | the leaves after `replace(n, x)` are the original leaves with every `n` spliced out for the leaves of `x`, in order |
| Interpreter.SpliceAtAppend | src/behavioral/interpreter.js:28-33 | splicing leaf sequences distributes over concatenation, as `replace` recurses into both children |
| Interpreter.ReplaceKeepsOperator | src/behavioral/interpreter.js:28-33 | `replace` keeps an interior node's operator and rebuilds it from its children's replacements |
| Interpreter.ReplaceAbsentIsIdentity | src/behavioral/interpreter.js:115-120 | with no leaf equal to `n`, `replace(n, x)` gives the original tree |
| Interpreter.ReplaceBySameLeaf | src/behavioral/interpreter.js:115-120 | replacing `n` by the leaf `n` changes nothing |
| Interpreter.ReplaceRemovesTarget | src/behavioral/interpreter.js:115-120 | if `x` has no leaf `n`, no leaf `n` survives `replace(n, x)` |
| Interpreter.ReplaceIdempotent | src/behavioral/interpreter.js:115-120 | if `x` has no leaf `n`, applying `replace(n, x)` twice equals applying it once |
| Interpreter.ReplaceByValue | src/behavioral/interpreter.js:115-120 | replacing by a tree gives the same outcome as replacing by a leaf holding that tree's value |
| Interpreter.UsageValue | src/behavioral/interpreter.js:129-145 | the demo tree evaluates to 25/70 - 8 |
| Interpreter.UsageReplaced | src/behavioral/interpreter.js:147 | `replace(16, Number(30))` turns only the `16` leaf into `30` |
| Interpreter.UsageReplacedValue | src/behavioral/interpreter.js:147-148 | the replaced tree evaluates to 25/140 - 8 |
| IteratorPattern.Iterator.constructor | src/behavioral/iterator.js:21-23 | a new iterator is at index 0 over the given list |
| IteratorPattern.Iterator.Next | src/behavioral/iterator.js:25-31 | the index grows by one, except at the end, where it stays; it stays within 0..length |
| IteratorPattern.Iterator.Prev | src/behavioral/iterator.js:33-39 | the index shrinks by one, except at 0, where it stays; it stays within 0..length |
| IteratorPattern.Iterator.Current | src/behavioral/iterator.js:41-43 | there is an element exactly when the index is below the length, and it is the one at the index |
| IteratorPattern.Iterator.IsDone | src/behavioral/iterator.js:45-47 | done exactly when there is no current element, that is when index >= length |
| IteratorPattern.CustomArray.constructor | src/behavioral/iterator.js:9-14 | the collection keeps its contents and creates one fresh iterator over them at index 0 |
| IteratorPattern.CustomArray.GetIterator | src/behavioral/iterator.js:16-18 | every call returns the same iterator object |
| IteratorPattern.IteratorUsage | src/behavioral/iterator.js:51-73 | the demo reads 1, then 2, then `{ name: 'John' }`, and then is done |
| Composite.Sentence.constructor | src/structural/composite.js:19-21 | a sentence holds its text |
| Composite.Sentence.LogText | src/structural/composite.js:24-26 | a sentence prints its text as one line |
| Composite.Sentence.GetChild | src/structural/composite.js:33-35 | a sentence has no child at any index |
| Composite.Sentence.GetChildren | src/structural/composite.js:36-38 | a sentence's child list is empty |
| Composite.Paragraph.constructor | src/structural/composite.js:42-44 | a new paragraph has no children |
| Composite.Paragraph.Add | src/structural/composite.js:57-59 | the child is appended at the end, and the output gains that child's lines at the end |
| Composite.Paragraph.Remove | src/structural/composite.js:60-62 | the child at `i` is cut out, or nothing changes past the end; the output becomes that of the children before `i` followed by those after it |
| Composite.Paragraph.GetChild | src/structural/composite.js:63-66 | a child exactly for 0 <= i < length, and then the one at `i`; otherwise `null` |
| Composite.Paragraph.GetChildren | src/structural/composite.js:67-69 | the children in order |
| Composite.LinesOf | src/structural/composite.js:47-56 | the definition of the `forEach` in `logText`: children in order, a sentence giving its text and a paragraph giving `' '`, its own output and `' '`; `LinesOfAppend` and `LinesOfFootprint` state its properties |
| Composite.Paragraph.LogText | src/structural/composite.js:47-56 | the definition of a paragraph's `logText`: the output of its children, read in its own footprint |
| Composite.LinesOfAppend | src/structural/composite.js:47-56 | the output of a child list is the concatenation of the outputs of its parts, in order |
| Composite.LinesOfSentence | src/structural/composite.js:48-49 | a sentence child contributes its own text as one line |
| Composite.LinesOfParagraph | src/structural/composite.js:50-54 | a paragraph child contributes its own output framed by two `' '` lines |
| Composite.LinesOfFootprint | src/structural/composite.js:47-56 | a child list's output depends only on the children's current state, not on the frame it is read in |
| Composite.ThreeChildLines | src/structural/composite.js:47-56 | output of a paragraph holding a paragraph, a sentence and a paragraph |
| Composite.AddSentence | src/structural/composite.js:74-76 | adding a new sentence appends it and its text to the output |
| Composite.AddParagraph | src/structural/composite.js:80-89 | adding a paragraph appends its framed output (the demo does so at lines 80 and 89) |
| Composite.FirstParagraph | src/structural/composite.js:73-76 | the first paragraph prints its three sentences |
| Composite.AnotherParagraph | src/structural/composite.js:83-87 | the other paragraph prints its two sentences |
| Composite.SuperParagraph | src/structural/composite.js:79-81 | the super paragraph prints the framed first paragraph and then its own sentence |
| Composite.BuildDemo | src/structural/composite.js:72-88 | the nested structure and its first output |
| Composite.CompositeUsage | src/structural/composite.js:72-99 | the three outputs: removing a sentence from the shared inner paragraph shows in the super paragraph, then the super paragraph loses its own sentence |
| Facade.StockedUp | src/structural/facade.js:38-42 | restocking adds exactly 100 to each counter, so non-negative counters are no longer low |
| Facade.Used | src/structural/facade.js:44-52 | with enough stock 10 of each is taken; when any counter is low, 100 are first added to each (net +90); non-negative counters stay non-negative |
| Facade.InventoryManager.constructor | src/structural/facade.js:33-36 | a new inventory holds 0 of each ingredient |
| Facade.InventoryManager.StockUp | src/structural/facade.js:38-42 | the counters become the restocked stock |
| Facade.InventoryManager.UseIngredients | src/structural/facade.js:44-52 | the counters become the used stock |
| Facade.Baker.constructor | src/structural/facade.js:55-56 | no cake before the first bake |
| Facade.Baker.BakeCake | src/structural/facade.js:58-68 | the baker stores and returns a cake of 10 flour, 10 sugar and 10 eggs |
| Facade.Cashier.constructor | src/structural/facade.js:71-72 | the register starts at 0 |
| Facade.Cashier.SellCake | src/structural/facade.js:74-82 | with no cake the register is unchanged; otherwise it gains 10 |
| Facade.BakeryManager.constructor | src/structural/facade.js:14-16 | the facade owns a new baker and a new cashier |
| Facade.BakeryManager.BakeCake | src/structural/facade.js:19-21 | the baker now holds a cake |
| Facade.BakeryManager.Register | src/structural/facade.js:25-27 | the definition of `checkRegister`: the cashier's money (printed in the source, returned here); `FacadeUsage` states its value after the demo |
| Facade.BakeryManager.SellCake | src/structural/facade.js:22-24 | the cashier sells the baker's cake and the baker's cake is unchanged |
| Facade.FacadeUsage | src/structural/facade.js:86-90 | bake, sell, bake, sell leaves 20 dollars in the register |
| Decorator.TextManager.constructor | src/structural/decorator.js:20-21 | a manager holds the text it is created with |
| Decorator.TextManager.SetText | src/structural/decorator.js:28-34 | a missing or empty text resets to `'hello world'`; any other text is stored |
| Decorator.TextManager.GetText | src/structural/decorator.js:36-38 | the definition of `getText`: the text stored last; `SetText`'s postcondition is stated through it |
| Decorator.StripDunders | src/structural/decorator.js:49 | the definition of `text.replace(/__/g, '')`: every `__`, matched left to right without overlap, is deleted; the `StripDunders…` lemmas state what it gives |
| Decorator.StripDundersLeavesNone | src/structural/decorator.js:49 | after removing every `__` no `__` is left |
| Decorator.StripDundersIdentity | src/structural/decorator.js:49 | removing `__` changes a text exactly when it contains `__` |
| Decorator.StripDundersKeepsClean | src/structural/decorator.js:49 | a text without `__` is left unchanged |
| Decorator.StripDundersTrailing | src/structural/decorator.js:49 | a trailing `__` is removed like any other |
| Decorator.StripDundersPlainPrefix | src/structural/decorator.js:49 | a prefix without `_` passes through unchanged |
| Decorator.StripDundersUndoesDecoration | src/structural/decorator.js:45-50 | removing dunders from `__s__` equals removing them from `s` |
| Decorator.StripAsterisks | src/structural/decorator.js:63 | the definition of `text.replace(/\*/g, '')`: every `*` is deleted; the `StripAsterisks…` lemmas state what it gives |
| Decorator.StripAsterisksKeeps | src/structural/decorator.js:63 | no `*` is left, and every other character is kept with its multiplicity |
| Decorator.StripAsterisksAppend | src/structural/decorator.js:63 | removing `*` distributes over concatenation |
| Decorator.StripAsterisksIdentity | src/structural/decorator.js:63 | removing `*` changes a text exactly when it contains `*` |
| Decorator.StripAsterisksUndoesDecoration | src/structural/decorator.js:59-64 | removing asterisks from `*s*` equals removing them from `s` |
| Decorator.DunderDecorator.constructor | src/structural/decorator.js:44-46 | the decorator captures `__` + the wrapped text + `__` and delegates to a new manager holding it |
| Decorator.DunderDecorator.SetText | src/structural/decorator.js:28-34 | `setText` reaches the delegate with the same fallback |
| Decorator.DunderDecorator.GetText | src/structural/decorator.js:44-46 | `getText` reached through `Object.create` delegation: the text of the manager the decorator was built on, which starts as the dundered text |
| Decorator.DunderDecorator.RemoveDunders | src/structural/decorator.js:47-50 | a new manager holding the captured text without dunders |
| Decorator.AsteriskDecorator.constructor | src/structural/decorator.js:58-60 | the decorator captures `*` + the wrapped text + `*` and delegates to a new manager holding it |
| Decorator.AsteriskDecorator.SetText | src/structural/decorator.js:28-34 | `setText` reaches the delegate with the same fallback |
| Decorator.AsteriskDecorator.GetText | src/structural/decorator.js:58-60 | `getText` reached through `Object.create` delegation: the text of the manager the decorator was built on, which starts as the asterisked text |
| Decorator.AsteriskDecorator.RemoveAsterisks | src/structural/decorator.js:61-64 | a new manager holding the captured text without asterisks |
| Decorator.DemoRoundTrip | src/structural/decorator.js:73-92 | for an inner text without `_` or `*`, the dunder removal and the asterisk removal both undo the demo's decorations |
| Decorator.DemoTexts | src/structural/decorator.js:73-92 | the demo's decorated and stripped texts, for the inner text |
| Decorator.DecorateHelloWorld | src/structural/decorator.js:73-80 | the triple decoration prints `__*__hello world__*__` |
| Decorator.DecoratorUsage | src/structural/decorator.js:73-92 | the demo prints `__*__hello world__*__`, `*hello world*`, `hello world` |
| Strategy.Includes | src/behavioral/strategy.js:27 | the definition of `str.includes(q)`: `q` is a prefix of the string or occurs in its tail; `IncludesIff` ties it to an occurrence at some index |
| Strategy.IncludesSound | src/behavioral/strategy.js:14 | `includes` holds only when the query occurs at some position |
| Strategy.IncludesComplete | src/behavioral/strategy.js:14 | every occurrence makes `includes` hold |
| Strategy.IncludesIff | src/behavioral/strategy.js:14 | `includes` holds exactly when the query occurs at some position |
| Strategy.SearchArray | src/behavioral/strategy.js:19-23 | the array search returns no more elements than it is given |
| Strategy.SearchArrayMembers | src/behavioral/strategy.js:19-23 | the array search keeps exactly the elements that include the query |
| Strategy.SearchArrayAppend | src/behavioral/strategy.js:19-23 | filtering keeps the order of the data |
| Strategy.SearchObject | src/behavioral/strategy.js:11-17 | the object search returns no more entries than it is given |
| Strategy.SearchObjectMembers | src/behavioral/strategy.js:11-17 | the object search keeps exactly the entries whose value includes the query |
| Strategy.SearchObjectAppend | src/behavioral/strategy.js:11-17 | filtering keeps the entry order |
| Strategy.SearchString | src/behavioral/strategy.js:25-29 | the string search holds exactly when the query occurs in the string |
| Strategy.AlgorithmFor | src/behavioral/strategy.js:46-52 | arrays select the array search, strings the string search, anything else the object search |
| Strategy.SearchContext.constructor | src/behavioral/strategy.js:32-35 | no strategy, no data, the given search string |
| Strategy.SearchContext.SetData | src/behavioral/strategy.js:37-53 | the data already held changes nothing; other `null` data throws `'Data is required'` and changes nothing; any other data is stored with its strategy |
| Strategy.SearchContext.SetSearchString | src/behavioral/strategy.js:55-57 | the search string is replaced |
| Strategy.SearchContext.Search | src/behavioral/strategy.js:59-61 | fails exactly when no data was ever set; otherwise runs the strategy chosen for the data's shape |
| Strategy.StrategyUsage | src/behavioral/strategy.js:65-83 | the three demo searches give `['hello', 'hello world']`, the `key1` and `key5` entries, and `true` |
| Strategy.DemoSearches | src/behavioral/strategy.js:65-83 | the demo's three searches for `'hello'` |
| ChainOfResponsibility.Widget.constructor | src/behavioral/chainOfResponsibility.js:21-43 | name, successor and kind are fixed at construction; composites start with no children |
| ChainOfResponsibility.Widget.Forward | src/behavioral/chainOfResponsibility.js:47-49 | the definition of `this.successor.handleError(error)`: the successor handles the message, and with no successor the call fails (`NullSuccessor`) |
| ChainOfResponsibility.Widget.HandleError | src/behavioral/chainOfResponsibility.js:47-49 | an error-handling composite handles the error itself; any other widget forwards it unchanged to its successor |
| ChainOfResponsibility.HandledByFirstHandler | src/behavioral/chainOfResponsibility.js:47-49 | an error is handled, unchanged, by the first error-handling widget along the chain; with none it fails at the null successor |
| ChainOfResponsibility.FirstHandler | src/behavioral/chainOfResponsibility.js:100-105 | the first index in a chain whose widget handles errors, or none |
| ChainOfResponsibility.Widget.AddWidget | src/behavioral/chainOfResponsibility.js:50-52 | a composite appends the widget; a leaf keeps its children and sends `'addWidget is not implemented'` to its successor |
| ChainOfResponsibility.Widget.GetWidgets | src/behavioral/chainOfResponsibility.js:88-95 | a composite returns its widgets in insertion order; a leaf sends `'getWidgets is not implemented'` to its successor |
| ChainOfResponsibility.Widget.Chain | src/behavioral/chainOfResponsibility.js:29-34 | the successor chain starts at the widget itself |
| ChainOfResponsibility.ChainUsage | src/behavioral/chainOfResponsibility.js:110-122 | `firstLeaf.getWidgets()` is handled in `'root'`, and `secondMainDiv.successor` is `root` |
| StatePattern.Banner | src/behavioral/state.js:9-19 | the guest banner is the fixed text; the member banner is the greeting followed by exactly the name |
| StatePattern.GuestBannerIgnoresName | src/behavioral/state.js:9-13 | the guest banner does not depend on the name |
| StatePattern.MemberBannerDistinguishes | src/behavioral/state.js:15-19 | member banners are equal exactly when the names are, and never equal the guest banner |
| StatePattern.Website.constructor | src/behavioral/state.js:23-25 | no state and an empty user name |
| StatePattern.Website.ShowBanner | src/behavioral/state.js:27-29 | fails exactly when there is no state; otherwise the state's banner for the stored name |
| StatePattern.Website.OpenWebsite | src/behavioral/state.js:31-33 | the state becomes guest |
| StatePattern.Website.Login | src/behavioral/state.js:35-38 | the user name becomes the given name and the state becomes member, from any state |
| StatePattern.StateUsage | src/behavioral/state.js:42-45 | an error before any state, then the guest banner, then the member banner for `'John Doe'` |
| SingletonPattern.TextSingleton.constructor | src/creational/singleton.js:49-50 | the text starts as `'hello world'` |
| SingletonPattern.TextSingleton.SetText | src/creational/singleton.js:56-62 | a string is stored; any other value throws `'Text must be a string'` and the text is unchanged |
| SingletonPattern.TextSingleton.GetText | src/creational/singleton.js:52-54 | the definition of `getText`: the closure's text; `SetText` and `SingletonUsage` state their results through it |
| SingletonPattern.Instance.constructor | src/creational/singleton.js:79-80 | the instance's message starts as `'this worked'` |
| SingletonPattern.Instance.SetMessage | src/creational/singleton.js:84-87 | the setter stores the value |
| SingletonPattern.Instance.Message | src/creational/singleton.js:81-83 | the definition of the `message` getter: the stored message; `SingletonUsage` reads it back through the second reference |
| SingletonPattern.SingletonPrototype.constructor | src/creational/singleton.js:78 | no instance before the first call |
| SingletonPattern.SingletonPrototype.New | src/creational/singleton.js:75-96 | the first call creates the instance; every later call returns that same instance |
| SingletonPattern.SingletonUsage | src/creational/singleton.js:70-102 | `'hello world'`, then `'goodbye world'`; both constructor calls give one object, so a message set through one reads back through the other |
| Visitor.ParseInt | src/behavioral/visitor.js:35 | the definition of `parseInt` with no radix: leading white space skipped, an optional sign, a `0x` prefix selecting radix 16, the longest digit run, and `NaN` (`None`) with no digit; `ParseIntString` and `ParseDigits` state what it reads |
| Visitor.IncrementString | src/behavioral/visitor.js:35 | the definition of `String(parseInt(s) + 1)`, with `NaN` giving `'NaN'`; `IncrementNumeral`, `IncrementDigits` and `IncrementNotANumber` state what it gives |
| Visitor.DigitValue | src/behavioral/visitor.js:35 | a digit's value is below its radix |
| Visitor.LeadingDigits | src/behavioral/visitor.js:35 | the digit run `parseInt` reads consists of digits only |
| Visitor.LeadingDigitsLongest | src/behavioral/visitor.js:35 | the digit run is a prefix, and it stops only at a non-digit or at the end |
| Visitor.TrimStartDropsSpace | src/behavioral/visitor.js:35 | `parseInt` skips exactly the leading white space |
| Visitor.DecimalString | src/behavioral/visitor.js:35 | `String` writes decimal digits with no leading zero |
| Visitor.IntString | src/behavioral/visitor.js:35 | the definition of `String(i)` for an integer: a `-` before the numeral of `-i` when `i` is negative, the numeral of `i` otherwise; `ParseIntString` and `IncrementNumeral` state what it gives |
| Visitor.DecimalRoundTrip | src/behavioral/visitor.js:35 | reading a decimal numeral gives back the number it was written from |
| Visitor.ParseIntString | src/behavioral/visitor.js:35 | `parseInt(String(i))` is `i` for every integer |
| Visitor.ParseDigits | src/behavioral/visitor.js:35 | `parseInt` reads a decimal digit string as its value |
| Visitor.IncrementNumeral | src/behavioral/visitor.js:34-36 | incrementing the numeral of `i` gives the numeral of `i + 1` |
| Visitor.IncrementDigits | src/behavioral/visitor.js:34-36 | incrementing any decimal digit string, with leading zeros or not, gives the canonical numeral of its value plus one |
| Visitor.IncrementNotANumber | src/behavioral/visitor.js:34-36 | a string that starts with neither white space, a sign nor a digit becomes `'NaN'` |
| Visitor.Incremented | src/behavioral/visitor.js:38 | same length, and each element is one more than the element at the same position |
| Visitor.IncrementedAppend | src/behavioral/visitor.js:38 | the element-wise increment keeps order across concatenation |
| Visitor.CustomNumber.Increment | src/behavioral/visitor.js:31-33 | the number grows by exactly 1 |
| Visitor.CustomString.Increment | src/behavioral/visitor.js:34-36 | the string becomes `String(parseInt(string) + 1)` |
| Visitor.CustomArray.Increment | src/behavioral/visitor.js:37-39 | every element grows by 1 and the argument is ignored |
| Visitor.CustomNumber.constructor | src/behavioral/visitor.js:44-48 | a new holder holds the given number |
| Visitor.CustomString.constructor | src/behavioral/visitor.js:50-54 | a new holder holds the given string |
| Visitor.CustomArray.constructor | src/behavioral/visitor.js:56-60 | a new holder holds the given list |
| Visitor.VisitorUsage | src/behavioral/visitor.js:63-73 | after one increment each the holders hold 6, `'6'` and `[2, 3, 4]` |
| AbstractFactory.MakeTone | src/creational/abstractFactory.js:41-46 | the tone is always `'.'` or `'!'`; a valid tone is kept and any other becomes `'.'` |
| AbstractFactory.MakeToneIdempotent | src/creational/abstractFactory.js:41-46 | rebuilding a tone from a built tone changes nothing |
| AbstractFactory.CreateGreeting | src/creational/abstractFactory.js:20-22 | every factory greets with `'hello'` |
| AbstractFactory.CreateGreetingTone | src/creational/abstractFactory.js:23-35 | the tone is valid, and it is `'!'` exactly for the happy greeter |
| AbstractFactory.Message | src/creational/abstractFactory.js:51 | the definition of `greetingMessage.text + greetingTone.tone` for a factory; `FactoryMessages` states its values |
| AbstractFactory.FactoryMessages | src/creational/abstractFactory.js:48-51 | the happy greeter says `'hello!'`; the neutral and base factories say `'hello.'` |

## Left out

- Console output. Every `console.log` (the warnings, the sold-cake lines and the loggers) is left out because it is I/O. Where a demo prints a value, the model returns it instead.
- `Interpreter.Apply`: JavaScript numbers are IEEE doubles and the model uses exact `real`s, so rounding is not modelled. A division by zero gives `DivisionByZero` instead of `Infinity` or `NaN`.
- `Interpreter.CopyIsSameTree`: `copy` builds new objects, but expression values have no identity here, so a copy equals the original. That `replace` leaves its receiver untouched holds trivially for values.
- `IteratorPattern.CustomArray.constructor`: the typed model cannot pass a non-array, so the `'CustomArray only accepts array as argument'` error has no counterpart.
- `IteratorPattern.Iterator.Current`: reading past the end gives `undefined` in JavaScript and `None` here. `index` is a public field, as in JavaScript, but every operation requires `Valid()`, so an index set past the end from outside is excluded. In JavaScript `next()` would then keep counting and `current()` return `undefined`.
- `Composite.Sentence.Add`, `Composite.Sentence.Remove`: these only print a message. A `Sentence` has no mutable state, so they change nothing and need no contract.
- `Composite.Paragraph.Remove`: a negative index, which `splice` counts from the end, is not modelled; the index is a `nat`.
- `Composite.Paragraph.GetChildren`: returns the children as a value, not the live array, so aliasing of the returned array is not modelled.
- `Composite.Paragraph.Add`: adding a paragraph that contains the receiver (a cycle, on which `logText` would not terminate) is excluded by its precondition. Adding a paragraph to a paragraph that is already nested grows that paragraph's footprint but not its parents' footprints. The parents then lose `Valid()`, and their `logText` output after such an add is not modelled; JavaScript simply prints the new lines. Removals and added sentences keep every footprint as it was, so they show through in all parents.
- `Decorator.DunderDecorator.constructor`, `Decorator.AsteriskDecorator.constructor`: `Object.create` prototype delegation becomes a `base` field holding the new manager. `removeDunders` and `removeAsterisks` model the global regular expressions `/__/g` and `/\*/g` as literal, left-to-right, non-overlapping deletion.
- `Decorator.TextManager.SetText`: only strings and a missing value are modelled; other falsy or length-less arguments are not.
- `Strategy.SearchContext.SetData`: JavaScript compares arrays and objects by identity, the model compares values. The two differ only when an equal but distinct value is set again, which leaves the strategy as it was in both cases. Mixed element types, non-string values and inherited properties are not modelled.
- `ChainOfResponsibility.Widget.constructor`: every successor must itself have been built as a widget (`ChainOk`), which keeps the chain finite. Reassigning the hidden `_successor` is not modelled.
- `SingletonPattern.TextSingleton.SetText`: a JavaScript value is modelled as either a string or some other value. `Object.seal` is not modelled.
- `mySingleton` and `mySingleton2` in `src/creational/singleton.js` are left out: they are plain and frozen object literals without behaviour worth a proof.
- `Visitor.ParseInt`: arbitrary-precision integers instead of doubles, so precision loss above 2^53 and exponent notation in `String` are not modelled. Only the ASCII white-space characters space, tab, line feed and carriage return are skipped.
- `Visitor.CustomArray.Increment`: elements are integers; `item + 1` on strings or other values is not modelled. The `log` methods are console output.
- The other files of the repository (builder, prototype, factory method, adapter, bridge, flyweight, proxy, command, mediator, memento, observer, template method, `src/behavioral/interpreter/index.js`) are not part of this model.
