# ARgorithmToolkit in Dafny

ARgorithmToolkit lets an algorithm be written in Python against instrumented
data structures. Every operation on a structure also appends a *state record*
to a shared log, the `StateSet`. A renderer later replays the log as an
animation. This project models the toolkit's core in Dafny:

- the base types: the error message, the validated state record and the log;
- the instrumented structures:
  - as classes whose fields the methods update: Stack, Queue, String, Vector,
    Array, PriorityQueue, Map, Set, and the doubly linked list with its nodes;
  - the Array keeps its cells in a two-dimensional `array<int>` (one row for
    a one-dimensional Array), and its cells are `int64`: a write of a value
    outside that range raises, and the default comparison wraps around;
  - each operation is specified by the new contents of the structure and by
    the exact records it appends, the order of those records included;
  - the List operations follow the intended behaviour where the Python code
    loses nodes (see "## Findings"); the code as written is modelled beside
    them as functions on values;
- `post_process`, which sets the records' `autoplay` flags;
- the JSON encoder: the reference tokens for nested structures and the
  fallback for numpy values;
- `injection_check`, the screening of a submitted file;
- the pure checks of the command-line tool;
- the schema report script;
- three example algorithms written against the toolkit:
  - Fibonacci over an Array, whose `int64` cells wrap around once the
    numbers leave that range;
  - bubble sort (an exchange sort comparing every pair `i < j`) over an
    Array;
  - infix-to-postfix conversion with a Stack and Strings.

Python values are the datatype `Values.Val`. An object of the toolkit is
referred to by a class and an identity. The identity stands for `id(self)` and
is issued by the log.

A Python exception becomes an `Err`/`Raised` result carrying the exception's
class and message. Its message, whether anything was recorded before it, and
the state left behind are part of each contract.

The class `StateSet` and the base class `ARgorithmStructure` are imported by
every structure but are not part of this model's sources; `Utils.StateSet`
models them from their use: a log of records, an `autoplay` flag and the
issuing of identities.

## Model

| member | source | states |
|---|---|---|
| Utils.ErrorText | ARgorithmToolkit/utils.py:6-16 | the message of an ARgorithmError is its first argument when that is non-empty, otherwise the fixed default; it is never empty |
| Utils.Template.constructor | ARgorithmToolkit/utils.py:22-24 | a template starts with the description "Not specified" and no states |
| Utils.NewStateSpec | ARgorithmToolkit/utils.py:34-40 | a record is built exactly when state_type, state_def and comments are all given; its content then has exactly the three dashed keys with the given values; otherwise the error names the first missing field in that order |
| Utils.MakeStateIsNewState | ARgorithmToolkit/utils.py:34-40 | the records every structure builds are exactly the ones the validating constructor accepts |
| Processor.PostProcess | ARgorithmToolkit/processor.py:7-16 | the pass rewrites the log in place into the records `PostProcessed` describes |
| Processor.DefaultMode | ARgorithmToolkit/processor.py:12-15 | with no log-wide flag, the number, order and content of the records are kept, and `autoplay` becomes True exactly on the records immediately followed by a comment; other records keep their flag |
| Processor.ForcedMode | ARgorithmToolkit/processor.py:9-11 | with a log-wide flag, every record takes that flag and nothing else changes |
| Processor.MarkFromSpec | ARgorithmToolkit/processor.py:13-15 | the loop from index `i` on marks exactly the records whose successor is a comment at index `i` or later |
| Processor.NeverWritesFalse | ARgorithmToolkit/processor.py:12-15 | the default pass never sets a flag to False |
| Processor.LastRecordUnmarked | ARgorithmToolkit/processor.py:13-15 | the last record is never changed by the default pass |
| Processor.ConsecutiveComments | ARgorithmToolkit/processor.py:13-15 | of two consecutive comments, the first is itself marked |
| Encoders.ToJson | ARgorithmToolkit/encoders.py:10-19 | only decorated classes have `to_json`; their token reads back as the object it was made from |
| Encoders.TokenRoundTrip | ARgorithmToolkit/encoders.py:15-17 | the token `$ARgorithmToolkit.<class>:<id>` parses back to the class and identity it names |
| Encoders.TokenInjective | ARgorithmToolkit/encoders.py:15-17 | distinct objects never share a token |
| Encoders.Default | ARgorithmToolkit/encoders.py:26-55 | an object of a class the package exposes (every toolkit structure among them) is encoded as its token, which parses back to that object, and an undecorated one raises "Unserializable ARgorithm class"; a numpy integer, float, bool or array becomes the same plain value, a complex becomes the dict `{real, imag}`, a void becomes None; anything else raises TypeError naming its type |
| Stacks.Stack.constructor | ARgorithmToolkit/stack.py:61-74 | a new stack is empty and its declaration is recorded |
| Stacks.NewStack | ARgorithmToolkit/stack.py:61-74 | a non-str name and a missing StateSet raise their own messages, in that order, before anything is recorded; a str name with a StateSet always succeeds, declaring a fresh empty stack; the log's autoplay flag is untouched |
| Stacks.Stack.Empty | ARgorithmToolkit/stack.py:79-80 | empty exactly when nothing is stored |
| Stacks.Stack.Push | ARgorithmToolkit/stack.py:82-85 | the element goes on top and the record shows the new body |
| Stacks.Stack.Pop | ARgorithmToolkit/stack.py:87-94 | the top element is removed and returned, and the record shows the body after removal; on an empty stack it raises "Stack is empty" and records nothing |
| Stacks.Stack.Top | ARgorithmToolkit/stack.py:96-102 | the top element is returned, the body is unchanged and the read is recorded; on an empty stack it raises and records nothing |
| Stacks.PopUndoesPush | ARgorithmToolkit/stack.py:82-94 | a pop right after a push returns the pushed element and restores the body |
| Queues.Queue.constructor | ARgorithmToolkit/queue.py:73-86 | a new queue is empty and its declaration is recorded |
| Queues.NewQueue | ARgorithmToolkit/queue.py:73-86 | a non-str name and a missing StateSet raise their own messages before anything is recorded; a str name with a StateSet always succeeds, declaring a fresh empty queue; the log's autoplay flag is untouched |
| Queues.Queue.Empty | ARgorithmToolkit/queue.py:91-92 | empty exactly when nothing is stored |
| Queues.Queue.Push | ARgorithmToolkit/queue.py:94-97 | the element joins at the back and the record shows the new body |
| Queues.Queue.Pop | ARgorithmToolkit/queue.py:99-106 | the front element is removed and returned, and the record shows the remaining body; on an empty queue it raises "queue is empty" and records nothing |
| Queues.Queue.Front | ARgorithmToolkit/queue.py:108-114 | the front element is returned and the read recorded, with the body unchanged; an empty queue raises |
| Queues.Queue.Back | ARgorithmToolkit/queue.py:116-122 | the back element is returned and the read recorded, with the body unchanged; an empty queue raises |
| Queues.FirstInFirstOut | ARgorithmToolkit/queue.py:94-106 | any sequence of elements pushed onto an empty queue comes out in the order it went in, leaving the queue empty |
| Strings.String.constructor | ARgorithmToolkit/string.py:70-88 | a new string holds the given body and its declaration is recorded |
| Strings.NewString | ARgorithmToolkit/string.py:70-88 | a non-str name, a missing StateSet and a non-str body raise their own messages, in that order, before anything is recorded; a str name, a StateSet and a str body always succeed, declaring a fresh String over the body; the log's autoplay flag is untouched |
| Strings.String.Get | ARgorithmToolkit/string.py:94-102 | a read at `k` returns the character at `k`, counting from the end when `k` is negative; out of range it raises IndexError, after the read has been recorded |
| Strings.String.Slice | ARgorithmToolkit/string.py:95-97 | a slice declares a fresh `<name>_sub` String over Python's clamped slice, leaving this one unchanged |
| Strings.String.SetItem | ARgorithmToolkit/string.py:104-105 | item assignment always raises TypeError and changes nothing |
| Strings.String.Append | ARgorithmToolkit/string.py:117-122 | a str is added at the end and recorded; any other value raises TypeError with nothing changed or recorded |
| Strings.String.AppendString | ARgorithmToolkit/string.py:117-122 | a String's body is appended, including when it is this string itself |
| Strings.String.Add | ARgorithmToolkit/string.py:124-130 | `s + v` declares a fresh `<name>_super` holding this body followed by `v`, and leaves this string unchanged; a non-str `v` raises after the declaration is recorded |
| Strings.String.AddString | ARgorithmToolkit/string.py:124-130 | `s + other` gives a fresh String holding both bodies, recording the declaration and then the append |
| Strings.StringIterator.constructor | ARgorithmToolkit/string.py:52-56 | the iterator starts at index 0, with the length fixed when it is made |
| Strings.StringIterator.Next | ARgorithmToolkit/string.py:58-65 | at the fixed length it stops; otherwise it returns the next character through an indexed read, which is recorded |
| Strings.Characters | ARgorithmToolkit/string.py:52-65 | iterating a String gives every character in order and records one read per index |
| Security.CountMentions | ARgorithmToolkit/security.py:25-30 | the first loop counts exactly the lines that mention the toolkit |
| Security.MentionCountZero | ARgorithmToolkit/security.py:28-32 | the count is zero exactly when no line mentions the toolkit |
| Security.InjectionCheck | ARgorithmToolkit/security.py:25-49 | the screening returns the verdict `Screen` gives: the first rule broken, in the order the rules are checked |
| Security.ScreenPasses | ARgorithmToolkit/security.py:25-49 | a file passes exactly when some line mentions the toolkit, every line beginning with `from` or `import` imports from the toolkit, and no name token is forbidden |
| Security.NotImportedFirst | ARgorithmToolkit/security.py:31-32 | without a mention of the toolkit, the file is refused with "ARgorithmToolkit not imported" whatever else it holds |
| Security.InjectionAfterLineRules | ARgorithmToolkit/security.py:34-49 | "possible code injection" is reported only when both line rules hold and some name token is forbidden |
| Security.SpacesThenRun | ARgorithmToolkit/security.py:36 | `\s+` matches any non-empty run of the characters `\s` matches in a str pattern (ASCII controls tab to carriage return, the separators 0x1C-0x1F and the Unicode spaces) before the word |
| Security.IndentedImportUnchecked | ARgorithmToolkit/security.py:34-42 | an indented import line is checked by neither rule, while the same line unindented is refused unless it names the toolkit |
| Security.FromPrefixRefused | ARgorithmToolkit/security.py:34-37 | a line that begins with `from` but not with `from` and whitespace is refused |
| Security.ToolkitPrefixAccepted | ARgorithmToolkit/security.py:39-42 | the import rule checks a prefix only: a module whose name merely starts with the toolkit's name passes |
| Cli.ValidFuncnameIsMatch | ARgorithmToolkit/cli.py:157-171 | the name check accepts exactly the names that the anchored-at-start regular expression `[A-Za-z_]+` matches |
| Cli.ValidFuncnameFirstOnly | ARgorithmToolkit/cli.py:166-171 | only the first character decides: a name may go on with any characters |
| Cli.StripPyInverse | ARgorithmToolkit/cli.py:234 | stripping removes one added `.py` suffix and no more |
| Cli.StripPyRestores | ARgorithmToolkit/cli.py:329 | a name ending in `.py` is its stripped form plus the suffix; any other name is kept as it is |
| Cli.StripPyKeeps | ARgorithmToolkit/cli.py:234 | a name without the suffix is left unchanged |
| Cli.TemplateFileStrips | ARgorithmToolkit/cli.py:196-203 | the file the `init` config names strips back to the ARgorithm's name |
| Cli.FirstMissingSpec | ARgorithmToolkit/cli.py:261-265 | the first loop stops exactly when a template key is absent from the config, and names that key |
| Cli.FirstMisfitSpec | ARgorithmToolkit/cli.py:266-272 | the second loop accepts exactly when every config key is a template key whose value has the template value's type; a rejection names a key at fault |
| Cli.CheckConfigAccepts | ARgorithmToolkit/cli.py:251-272 | a config is accepted exactly when every template key is present and every config key is a template key with a value of the template's type |
| Cli.CheckConfigBlames | ARgorithmToolkit/cli.py:261-272 | each rejection names a key that really is missing, unnecessary or of the wrong type |
| Cli.InitConfigAccepted | ARgorithmToolkit/cli.py:196-203 | the config `init` writes passes the check made by `submit` and `update` |
| Cli.ValuesNotCompared | ARgorithmToolkit/cli.py:266-272 | only types are compared, so the config written for one name passes the check made for any other name |
| Cli.RenderMenu | ARgorithmToolkit/cli.py:429-435 | an option outside the listed range raises "opt out of range" |
| Cli.RenderMenuChoosesShown | ARgorithmToolkit/cli.py:425-435 | the option is accepted exactly when `1 <= option <= len`, and option `n` chooses the entry shown as `n` |
| Schema.FlattenSpellsPaths | schema.py:55-59 | when no two leaves spell the same key, `flatten_dict` gives each non-dict leaf once, in iteration order, under the key its path spells |
| Schema.FlattenLeaf | schema.py:59 | a non-dict value with prefix `p` flattens to the single entry `{p: value}` |
| Schema.TopLevelKeys | schema.py:56 | at top level a path of non-empty keys is spelled as the keys joined by the separator, with no leading separator |
| Schema.SpelledJoins | schema.py:56 | under a non-empty prefix, a path is spelled as the prefix and the keys joined by the separator |
| Schema.FlattenCountsLeaves | schema.py:55-59 | the number of entries is the number of non-dict leaves, and an empty dict contributes none |
| Schema.KeyCollision | schema.py:56-58 | two leaves can spell the same key; the entry then keeps the first one's place and the last one's value, so a leaf is lost |
| Schema.StoreAllAppends | schema.py:56-58 | storing keys not yet present appends the entries in order |
| Schema.CountStatuses | schema.py:67-75 | the counting loop gives the result `Tallied` describes: the total and the three buckets, or the error of the first status that names no bucket |
| Schema.TalliedCounts | schema.py:73-75 | the tally succeeds exactly when every status names a bucket; the total is then the number of entries and the buckets split them |
| Schema.BucketsPartition | schema.py:73-75 | when every status names a bucket, the three bucket sizes add up to the number of entries |
| Schema.KeysWithMembers | schema.py:75 | each key lands in the bucket of its own status |
| Arrays.ShapeExact | ARgorithmToolkit/array.py:15-36 | the corrected dimension check accepts data exactly when it is a rectangular grid, and then returns its dimensions; `Shape` is sound and complete for `HasShape` |
| Arrays.RaggedDataAccepted | ARgorithmToolkit/array.py:15-36 | `check_dimensions` as written accepts `[1, [2]]`, which has no fixed dimensions, because it compares only the lengths its recursive calls return |
| Arrays.Wrap64Add | examples/fibonacci.py:12 | `int64` addition is addition modulo 2^64: wrapping the operands first does not change the wrapped sum |
| Arrays.Array.constructor | ARgorithmToolkit/array.py:235-260 | a new array holds exactly the given rows in a fresh grid of cells, has a fresh identity and records its declaration with the whole body |
| Arrays.NewArray | ARgorithmToolkit/array.py:235-260 | a non-str name and a missing StateSet raise their own messages, in that order, before anything is recorded; data without fixed dimensions raises "please pass array of fixed dimensions"; otherwise the call succeeds and the array holds the data's rows, or a one- or two-dimensional grid of the given shape filled with `fill`, and its declaration is recorded; the log's autoplay flag is untouched |
| Arrays.Array.Slice | ARgorithmToolkit/array.py:305-307 | `arr[lo:hi]` declares a fresh `<name>_sub` Array over Python's clamped slice of the first axis |
| Arrays.Array.Get | ARgorithmToolkit/array.py:286-325 | the read is recorded first; with as many indices as axes the cell's value is returned, with fewer a fresh `<name>_sub` Array over that row is declared; an index out of bounds or too many indices raise "invalid index error" after the read is recorded |
| Arrays.Array.Set | ARgorithmToolkit/array.py:327-344 | a write in range stores the value in exactly that cell and records the write with the old value; an index out of range, or a value outside `int64`, raises with no cell changed and nothing recorded |
| Arrays.Array.Compare | ARgorithmToolkit/array.py:359-383 | both cells are read and the comparison recorded; the result is the given function of the two values, or their `int64` difference; an index out of range raises before anything is recorded |
| Arrays.Array.Swap | ARgorithmToolkit/array.py:385-405 | the two cells trade values, every other cell is unchanged and the swap is recorded; an index out of range, the second looked up first, raises with nothing changed |
| Vectors.FirstIndex | ARgorithmToolkit/vector.py:390-391 | `list.index`: absent exactly when the value is not in the list, otherwise the first position holding it |
| Vectors.VectorData | ARgorithmToolkit/vector.py:239-245 | the corrected body check: None gives an empty body, a list is taken as the body, and anything else raises "vector body should be list" |
| Vectors.VectorDataCheckTooWeak | ARgorithmToolkit/vector.py:242 | the check as written accepts any truthy value, such as the str "abc" or the int 7, as a vector body |
| Vectors.NewVector | ARgorithmToolkit/vector.py:227-247 | a non-str name, a missing StateSet and a body that is not a list raise their own messages, in that order, before anything is recorded; otherwise the call succeeds, declaring a fresh vector over the data; the log's autoplay flag is untouched |
| Vectors.Vector.Get | ARgorithmToolkit/vector.py:261-286 | the read is recorded, and the element at `k` is returned, counting from the end when `k` is negative; out of range it raises after the read is recorded |
| Vectors.Vector.Slice | ARgorithmToolkit/vector.py:281-283 | a slice declares a fresh `<name>_sub` Vector over Python's clamped slice, leaving this one unchanged |
| Vectors.Vector.Set | ARgorithmToolkit/vector.py:288-307 | a write in range replaces exactly that element and records the write with the old value; out of range it raises with nothing changed or recorded |
| Vectors.Vector.Insert | ARgorithmToolkit/vector.py:321-350 | with no index the value is appended; with an index `i >= 0` it goes before position `i` (at the end when `i` is past it) and the record names `i`; a negative index changes and records nothing |
| Vectors.Vector.Remove | ARgorithmToolkit/vector.py:352-396 | with neither argument the last element is popped (an empty vector raises "pop from empty list"); with an index in range that element goes; with a value its first occurrence goes, or "x is not in list" is raised; anything else raises "Either give only a valid index or only value..."; the one record names the position removed (the last position for a pop, the given index, or the value's first occurrence), and an error changes and records nothing |
| Vectors.PopIndexOffByOne | ARgorithmToolkit/vector.py:382-385 | the pop branch as written records the length after the pop minus one, so `[1, 2]` records index 0 while the element removed was at index 1; for every non-empty body the record as written is one below the last position |
| Vectors.Vector.Compare | ARgorithmToolkit/vector.py:398-424 | both elements are read and the comparison recorded; the result is the given function of the two values, or their difference; an index out of range raises before anything is recorded |
| Vectors.Vector.Swap | ARgorithmToolkit/vector.py:426-445 | the two elements trade places, every other element and the multiset of elements are unchanged, and the swap is recorded; an index out of range raises with nothing changed |
| Vectors.RemoveUndoesInsert | ARgorithmToolkit/vector.py:321-396 | removing at the index just inserted at restores the body |
| Vectors.ReadBackWrite | ARgorithmToolkit/vector.py:261-307 | reading an index just written returns the value written |
| Vectors.SwapTwice | ARgorithmToolkit/vector.py:426-445 | swapping the same two indices twice restores the body |
| PriorityQueues.HeapMin | ARgorithmToolkit/priorityqueue.py:185-259 | the root of a min-heap is no larger than any element |
| PriorityQueues.HeapPush | ARgorithmToolkit/priorityqueue.py:199 | `heapq.heappush` keeps the heap property and adds exactly the new element |
| PriorityQueues.HeapPop | ARgorithmToolkit/priorityqueue.py:227 | `heapq.heappop` returns the root and leaves a heap of exactly the remaining elements |
| PriorityQueues.PriorityQueue.constructor | ARgorithmToolkit/priorityqueue.py:141-155 | a new priority queue is an empty heap and its declaration is recorded |
| PriorityQueues.NewPriorityQueue | ARgorithmToolkit/priorityqueue.py:141-155 | a non-str name and a missing StateSet raise their own messages, in that order, before anything is recorded; a str name with a StateSet always succeeds, declaring a fresh empty queue; the log's autoplay flag is untouched |
| PriorityQueues.PriorityQueue.Empty | ARgorithmToolkit/priorityqueue.py:169-183 | empty exactly when nothing is stored |
| PriorityQueues.PriorityQueue.Offer | ARgorithmToolkit/priorityqueue.py:185-201 | the element is added to the multiset of elements, the body stays a heap with its least element first, and the offer is recorded |
| PriorityQueues.PriorityQueue.Poll | ARgorithmToolkit/priorityqueue.py:203-231 | the least element is removed and returned and the poll recorded; an empty queue raises and records nothing |
| PriorityQueues.PriorityQueue.Peek | ARgorithmToolkit/priorityqueue.py:233-259 | the least element is returned, the body is unchanged and the read recorded; an empty queue raises and records nothing |
| PriorityQueues.PeekThenPoll | ARgorithmToolkit/priorityqueue.py:203-259 | a poll returns the element a peek just returned |
| Maps.LookupAt | ARgorithmToolkit/map.py:231-257 | in a dict without repeated keys, looking up a stored key gives its value |
| Maps.PutKeepsConverted | ARgorithmToolkit/map.py:288-318 | when no other key converts to the same rendered key, the rendered body after a set is the set of the rendered key and value on the old body |
| Maps.DeleteKeepsConverted | ARgorithmToolkit/map.py:367-428 | when no other key converts to the same rendered key, the rendered body after a delete is the delete of the rendered key from the old body |
| Maps.ObjectKeyLastValueNone | ARgorithmToolkit/map.py:312-316 | an object key is rendered as its token, so looking it up in the rendered body finds nothing and the record's old value is `"none"` |
| Maps.TokenKeyCollides | ARgorithmToolkit/map.py:288-318 | a str key equal to an object's token and that object are two keys of the dict but one key of the rendered body |
| Maps.Map.constructor | ARgorithmToolkit/map.py:199-214 | a new map is empty and its declaration is recorded |
| Maps.NewMap | ARgorithmToolkit/map.py:199-214 | a non-str name and a missing StateSet raise their own messages, in that order, before anything is recorded; a str name with a StateSet always succeeds, declaring a fresh empty map; the log's autoplay flag is untouched |
| Maps.Map.Len | ARgorithmToolkit/map.py:217-229 | the length is the number of distinct keys stored |
| Maps.Map.Set | ARgorithmToolkit/map.py:288-318 | a key that is not an int, str, float, bool or hashable toolkit object raises, then a value that is not an int, str, float, bool or toolkit structure raises; otherwise the key maps to the value in both the dict and its rendered body, and the record shows the old rendered value |
| Maps.Map.SetItem | ARgorithmToolkit/map.py:321-351 | `m[k] = v` behaves as `set` with no comments |
| Maps.Map.Get | ARgorithmToolkit/map.py:231-257 | an unhashable key and a missing key raise "invalid key error" with Python's message; otherwise the stored value is returned and the read recorded |
| Maps.Map.GetDefault | ARgorithmToolkit/map.py:260-286 | an unhashable key raises TypeError; a stored key returns its value; a missing key returns the default; both reads are recorded, the second with the comment about the default |
| Maps.Map.DelItem | ARgorithmToolkit/map.py:367-394 | a key whose rendered form is stored is deleted from the dict and its rendered body and the removal recorded; an unhashable or missing key raises |
| Maps.Map.Remove | ARgorithmToolkit/map.py:396-428 | like `del`, but a missing key records "key not found, nothing removed." instead of raising |
| Maps.MapIterator.Next | ARgorithmToolkit/map.py:133-157 | the iterator yields the key and value pairs in insertion order, then stops |
| Maps.Items | ARgorithmToolkit/map.py:353-365 | iterating the map gives every key and value pair of the dict, in insertion order, and records nothing |
| Maps.ReadBackSet | ARgorithmToolkit/map.py:231-318 | a read right after a set of a valid key and value returns the value set |
| Maps.RemoveDeletes | ARgorithmToolkit/map.py:396-428 | after a remove the key is in neither the dict nor its rendered body |
| Sets.SetData | ARgorithmToolkit/set.py:173-196 | falsy data gives an empty set; a list, tuple, set, str or dict gives its elements; any element that is not an int, str, float, bool or hashable toolkit object raises |
| Sets.Set.constructor | ARgorithmToolkit/set.py:173-196 | a new set holds the given elements, its rendered body is their image and its declaration is recorded |
| Sets.NewSet | ARgorithmToolkit/set.py:173-196 | a non-str name, a missing StateSet and invalid data raise their own messages, in that order, before anything is recorded; otherwise the call succeeds, declaring a fresh set of the data's elements; the log's autoplay flag is untouched |
| Sets.Set.Add | ARgorithmToolkit/set.py:213-238 | a valid element is added to the set and its rendered form to the body, and the addition recorded; any other element raises with nothing changed or recorded |
| Sets.Set.Remove | ARgorithmToolkit/set.py:241-263 | an element whose rendered form is stored is removed from both and the removal recorded; a missing element raises with its repr; a Python set, which `set.remove` retries as a frozenset that is never an element, raises with the set's repr; any other unhashable key raises "unhashable type"; no failure changes or records anything except an element missing from the working set after its body entry went |
| Sets.Set.Find | ARgorithmToolkit/set.py:265-284 | membership is returned and recorded; a Python set, which `in` retries as a frozenset that is never an element, is recorded and returned as not found; any other unhashable key raises TypeError and records nothing |
| Sets.Set.Intersection | ARgorithmToolkit/set.py:287-309 | a fresh `<a>_intersection_<b>` Set of the common elements is declared, with the operation's comment |
| Sets.Set.Union | ARgorithmToolkit/set.py:311-333 | a fresh `<a>_union_<b>` Set of the elements of either is declared, with the operation's comment |
| Sets.Set.Difference | ARgorithmToolkit/set.py:335-357 | a fresh `<a>_difference_<b>` Set of the elements of the first that are not in the second is declared, with the operation's comment |
| Sets.ImageUnion | ARgorithmToolkit/set.py:311-333 | rendering commutes with union |
| Sets.ImageIntersection | ARgorithmToolkit/set.py:287-309 | rendering commutes with intersection when no two elements render alike |
| Sets.AddThenFind | ARgorithmToolkit/set.py:213-284 | an element just added is found |
| Sets.AddCountsOnce | ARgorithmToolkit/set.py:198-238 | adding grows the length by one exactly when the element was absent |
| Sets.RemoveThenFind | ARgorithmToolkit/set.py:241-284 | an element just removed is not found |
| DoublyLinkedLists.Node.constructor | ARgorithmToolkit/doublylinkedlist.py:190-210 | a new node holds the value, has no neighbours and records its declaration |
| DoublyLinkedLists.NewNode | ARgorithmToolkit/doublylinkedlist.py:190-210 | a missing StateSet raises "algo should be of type StateSet"; with a StateSet the call always succeeds, declaring a fresh unlinked node; the log's autoplay flag is untouched |
| DoublyLinkedLists.Node.SetValue | ARgorithmToolkit/doublylinkedlist.py:212-259 | assigning `value` records the change with the old value |
| DoublyLinkedLists.Node.SetNext | ARgorithmToolkit/doublylinkedlist.py:212-259 | assigning `next` records the change with the old neighbour, unless both old and new are None |
| DoublyLinkedLists.Node.SetPrev | ARgorithmToolkit/doublylinkedlist.py:212-259 | assigning `prev` records the change with the old neighbour, unless both old and new are None |
| DoublyLinkedLists.NewDoublyLinkedList | ARgorithmToolkit/doublylinkedlist.py:387-408 | a non-str name, a missing StateSet and a head from another StateSet raise their own messages, in that order, before anything is recorded; otherwise the call succeeds and the list starts with head and tail both the given node; the log's autoplay flag is untouched |
| DoublyLinkedLists.DoublyLinkedList.SetHead | ARgorithmToolkit/doublylinkedlist.py:410-431 | assigning `head` records the change with the old head |
| DoublyLinkedLists.DoublyLinkedList.SetTail | ARgorithmToolkit/doublylinkedlist.py:410-431 | assigning `tail` records the change with the old tail |
| DoublyLinkedLists.List.constructor | ARgorithmToolkit/doublylinkedlist.py:485-487 | a new List is empty and its declaration is recorded |
| DoublyLinkedLists.NewList | ARgorithmToolkit/doublylinkedlist.py:387-396 | `List(name, algo)` keeps the checks it inherits: a non-str name and a missing StateSet raise their own messages, in that order, before anything is recorded; otherwise the call succeeds, declaring a fresh empty List with empty comments |
| DoublyLinkedLists.List.Len | ARgorithmToolkit/doublylinkedlist.py:489-499 | `size` is the number of values held |
| DoublyLinkedLists.List.PushFront | ARgorithmToolkit/doublylinkedlist.py:537-561 | the value goes first, the chain of nodes stays well linked, and the node's declaration and each link it changes are recorded in order |
| DoublyLinkedLists.List.PushBack | ARgorithmToolkit/doublylinkedlist.py:563-586 | the value goes last, the chain stays well linked, and the records follow the links changed |
| DoublyLinkedLists.List.PopFront | ARgorithmToolkit/doublylinkedlist.py:589-616 | the first value is removed and returned and the unlinking recorded; an empty list raises and records nothing |
| DoublyLinkedLists.List.PopBack | ARgorithmToolkit/doublylinkedlist.py:618-644 | the last value is removed and returned and the unlinking recorded; an empty list raises and records nothing |
| DoublyLinkedLists.InsertPosition | ARgorithmToolkit/doublylinkedlist.py:518-527 | the position `insert` puts the value at: first for an empty list or index 0, last for no index or one beyond the size, after the head for a negative index, otherwise at the index |
| DoublyLinkedLists.List.Insert | ARgorithmToolkit/doublylinkedlist.py:501-535 | the value is inserted at `InsertPosition`, the chain stays well linked with the tail moved when the new node is last, and the records are those of `push_front`, `push_back` or the splice |
| DoublyLinkedLists.List.Remove | ARgorithmToolkit/doublylinkedlist.py:703-740 | every node holding the value is unlinked, leaving exactly the other values in order, and each unlinking is recorded in the order the walk meets them; an empty list raises "Empty list" |
| DoublyLinkedLists.RemoveTraceLength | ARgorithmToolkit/doublylinkedlist.py:722-740 | the removal records two link changes per node removed |
| DoublyLinkedLists.List.Front | ARgorithmToolkit/doublylinkedlist.py:646-666 | the first value; an empty list raises |
| DoublyLinkedLists.List.Back | ARgorithmToolkit/doublylinkedlist.py:668-688 | the last value; an empty list raises |
| DoublyLinkedLists.List.ToList | ARgorithmToolkit/doublylinkedlist.py:742-760 | the walk from the head collects exactly the values held, in order |
| DoublyLinkedLists.RemoveAsWrittenOutcome | ARgorithmToolkit/doublylinkedlist.py:720-740 | the remove loop as written: an empty list raises, `[v]` raises AttributeError on `None.prev`, a list of two or more where one value survives is emptied, and otherwise the right values are kept |
| DoublyLinkedLists.RemoveAsWrittenLoses | ARgorithmToolkit/doublylinkedlist.py:722-729 | removing `a` from `[a, b]` as written empties the list instead of leaving `[b]`, and removing it from `[a]` raises instead of leaving `[]` |
| DoublyLinkedLists.InsertAsWrittenStaleTail | ARgorithmToolkit/doublylinkedlist.py:522-535 | the splice branch as written, at index equal to the size, appends the value but leaves `tail` on the old last node, so the next `push_back` drops it |
| DoublyLinkedLists.InsertAsWrittenLoses | ARgorithmToolkit/doublylinkedlist.py:522-535 | `[1]`, `insert(2, 1)`, `push_back(3)` as written gives `[1, 3]` instead of `[1, 2, 3]` |
| BubbleSort.Run | examples/bubblesort.py:7-15 | the array ends holding the result of the passes on the input, and the log is exactly the declaration followed by, for each `i`, its comment and, for each `j > i`, the comparison and, when `arr[i] > arr[j]`, the swap |
| BubbleSort.CompareAndSwap | examples/bubblesort.py:13-14 | one inner step exchanges cells `i` and `j` exactly when `arr[i] > arr[j]` and records the comparison and the swap it made |
| BubbleSort.SortsInput | examples/bubblesort.py:10-14 | the passes leave the array sorted and a permutation of the input |
| BubbleSort.RunCounts | examples/bubblesort.py:10-14 | the log holds one comment per element, `n(n-1)/2` comparisons, and no more swaps than comparisons |
| InfixToPostfix.PrecedenceOrders | examples/infix_to_postfix.py:3-13 | between the five operators the test never fails, is reflexive, total and transitive; a `(` below never pops; anything else looked up raises KeyError |
| InfixToPostfix.CloseGroupSpec | examples/infix_to_postfix.py:44-51 | a `)` fails exactly when there is no `(` on the stack, and then with "Stack is empty" |
| InfixToPostfix.FlushReverses | examples/infix_to_postfix.py:62-64 | the final loop appends the stack to the output top first |
| InfixToPostfix.ConvertKeeps | examples/infix_to_postfix.py:37-64 | a successful conversion keeps the letters in order and every character except the brackets; no `)` is output, and each `(` left unmatched is output once |
| InfixToPostfix.NeverInvalidInfix | examples/infix_to_postfix.py:44-51 | "Invalid infix expression" is never raised; a conversion fails only with "Stack is empty" or "Invalid operator used" |
| InfixToPostfix.ExampleProduct | examples/infix_to_postfix.py:15-66 | `a+b*c` becomes `abc*+` |
| InfixToPostfix.ExampleBrackets | examples/infix_to_postfix.py:15-66 | `(a+b)*c` becomes `ab+c*` |
| InfixToPostfix.ExamplePower | examples/infix_to_postfix.py:3-13 | `a^b^c` becomes `ab^c^`: `^` is treated as left-associative |
| InfixToPostfix.ExampleUnknownOperator | examples/infix_to_postfix.py:53-60 | `a+1` raises "Invalid operator used" |
| InfixToPostfix.ExampleUnopened | examples/infix_to_postfix.py:44-51 | `a)` raises "Stack is empty" |
| InfixToPostfix.Run | examples/infix_to_postfix.py:15-66 | the run fails with the conversion's error, or returns a log equal to `Log`: the three declarations, one record per character read and per stack or output operation, and the final comment |
| InfixToPostfix.FlushLogEnds | examples/infix_to_postfix.py:62-64 | the last record of the final loop is the append of the bottom of the stack, showing the finished output |
| Fibonacci.Run | examples/fibonacci.py:4-13 | with fewer than two cells the initial writes raise IndexError before anything is recorded; otherwise the array is declared with cells `0, 1, 0, ...` and no comments (the text passed after the data lands in `shape`), followed by the loop's records |
| Fibonacci.Fill | examples/fibonacci.py:11-12 | after the loop, cell `j` holds the `j`-th Fibonacci number wrapped to `int64`, and the log has grown by three records per step |
| Fibonacci.Step | examples/fibonacci.py:12 | one step reads cells `i-1` and `i-2`, then writes their `int64` sum, the wrapped `i`-th Fibonacci number, into cell `i`; the two reads and the write are recorded in that order |
| Fibonacci.Read | examples/fibonacci.py:12 | a read of an already filled cell returns its wrapped Fibonacci number and records the read |
| Fibonacci.Write | examples/fibonacci.py:12 | writing the next number fills one more cell and records the write, with the old value 0 |
| Fibonacci.FilledStep | examples/fibonacci.py:11-12 | the `int64` sum of the two cells a step reads is the next wrapped Fibonacci number, and writing it fills one more cell |
| Fibonacci.FilledAll | examples/fibonacci.py:11-12 | once the loop is over, cell `j` holds the exact `j`-th Fibonacci number if and only if that number fits in `int64` |
| Fibonacci.ExactBelow | examples/fibonacci.py:11-12 | every cell before one holding its exact number holds its own exact number |
| Fibonacci.TraceLength | examples/fibonacci.py:11-12 | the loop records exactly three states per cell from 2 on, `3(n-2)` in all |
| Fibonacci.LastWrite | examples/fibonacci.py:11-12 | the last record is the write of the last cell, and its body is the whole sequence of wrapped Fibonacci numbers |

## Left out

- PriorityQueues.PriorityQueue.Offer: elements are ints only; Python orders any comparable values, and a mix of incomparable ones raises TypeError inside `heapq`, which is not modelled.
- PriorityQueues.PriorityQueue.Poll: elements are ints only, for the same reason.
- PriorityQueues.PriorityQueue.Peek: elements are ints only, for the same reason.
- Maps.Lookup: keys are compared by the model's structural equality, not Python's `==` and `hash`, so `1`, `True` and `1.0` are three keys here and one key in Python.
- Sets.Set.Find: membership uses the model's structural equality, for the same reason.
- Vectors.FirstIndex: `list.index` uses the model's structural equality, for the same reason.
- Values.Truthy: every toolkit object is truthy in the model; in Python each container defines `__len__`, so an empty one is falsy. The model's references do not carry the referenced structure's length. The as-written `or data` check of the Vector constructor (`Vectors.VectorDataAcceptedAsWritten`) therefore accepts an empty Vector passed as data, which Python refuses.
- Maps.Map.GetDefault: for a missing key, a default that is an empty toolkit structure is recorded as its reference, where Python records "none" because the structure is falsy. This follows from `Values.Truthy`.
- DoublyLinkedLists.List.Remove: nodes are matched by the model's structural equality, not Python's `==`, so removing `1` leaves nodes holding `True` or `1.0`, which Python would unlink too.
- Vectors.Vector.Compare: float operands are exact reals in the model, so the default difference of `0.3` and `0.1` is exactly `0.2`, where Python's IEEE doubles give `0.19999999999999998`; rounding of float arithmetic is not modelled.
- Text.Show: floats and sets are rendered as the placeholders `<float>` and `<set>`, since Python's shortest round-trip float text and its set ordering are not modelled; this reaches the write comment of Vector `__setitem__`, the "x is not in list" message of Vector `remove`, and the comment of String `+`.
- Arrays.NewArray: only one- and two-dimensional grids of `int64` are modelled; the `dtype` argument, float or object data, and numpy's own handling of ragged data (which depends on its version) are not, so the precondition asks for an integer grid whenever the data has fixed dimensions.
- Arrays.Array.Get: an index tuple longer than the rank and numpy's fancy indexing (lists, booleans, `Ellipsis`) are not modelled beyond the error for too many indices.
- BubbleSort.Run: the input is a list of ints held in unbounded cells; `np.array(data)` is called without a dtype, so numpy picks the element type from the data (`int64`, `uint64` for larger non-negative ints, an object array beyond that) and raises nothing, and the model's cells behave like that object array; numpy's float array for an empty list and the chosen dtype itself are not modelled.
- InfixToPostfix.IsAlpha: `str.isalpha` is modelled over the ASCII letters only; Unicode letters are treated as operators.
- Values.PySlice: slices with a step are not modelled.
- Utils.StateSet.FreshId: `id(self)` is modelled as a counter issued by the log, so identities are unique within one log but are not memory addresses.
- Sets.NewSet: data that is itself a toolkit object (a Vector, an Array or another Set iterated as data) is excluded by the precondition; only Python values are modelled as data.
- Vectors.NewVector: the Vector keeps a copy of the data list; Python shares the caller's list, so later changes through either name are not reflected in the other.
- The `__iter__` of Vector and Array, and `ListIterator`: iteration over these is not modelled; the String and Map iterators are.
- The `__del__` methods, which record deletions when Python frees a node or structure: object lifetime is not modelled.
- `__str__` and `__repr__` of every structure: text rendering is not modelled.
- Array `tolist`, `shape` and the `len` of a one-dimensional array beyond `Len`: they only read numpy's own state.
- Encoders: the `Variable` branch, the `inspect` scan of the package and `json.dumps` are not modelled; the classes the scan finds are given by `InPackage`.
- Cli: the commands' file, network and terminal I/O are not modelled; only the pure checks are.
- Security: `execution_check` (it runs the submitted file) is left out, and the tokenizer's output is a parameter of the screening.
- Schema: reading the JSON report and printing the summary are left out.
- `parser.py` is not part of this model.
- Processor.PostProcess: the returned `json.dumps` text of the records is not modelled; the contract is about the rewritten records.

## Findings

| source | as written | input that shows it | evidently intended | confidence | as-written member | corrected member |
|---|---|---|---|---|---|---|
| ARgorithmToolkit/doublylinkedlist.py:722-729 | `remove` decrements `size` first and, when the new size is 1, empties the whole list | removing `a` from `[a, b]` leaves an empty list; removing `a` from `[a]` raises AttributeError on `None.prev` | every node holding the value is unlinked and the others stay, giving `[b]` and `[]` | not executed | DoublyLinkedLists.RemoveAsWrittenLoses | DoublyLinkedLists.List.Remove |
| ARgorithmToolkit/doublylinkedlist.py:522-535 | the splice branch of `insert` never moves `tail`, also when the new node becomes the last one | `[1]`, then `insert(2, 1)`, then `push_back(3)` gives `[1, 3]` | the tail follows the new last node, giving `[1, 2, 3]` | not executed | DoublyLinkedLists.InsertAsWrittenLoses | DoublyLinkedLists.List.Insert |
| ARgorithmToolkit/vector.py:382-385 | the pop branch records `len(self) - 1` after the pop | `[1, 2].remove()` records index 0 | the record names the index removed, 1 | not executed | Vectors.PopIndexOffByOne | Vectors.Vector.Remove |
| ARgorithmToolkit/vector.py:242 | `assert isinstance(data, list) or data` accepts any truthy value | `Vector("v", algo, "abc")` and `Vector("v", algo, 7)` are accepted | a body that is not a list raises "vector body should be list" | not executed | Vectors.VectorDataCheckTooWeak | Vectors.NewVector |
| ARgorithmToolkit/array.py:15-36 | `check_dimensions` compares only the lengths its recursive calls return, and a scalar counts as 1 | `[1, [2]]` passes the check | data without fixed dimensions raises "please pass array of fixed dimensions" | not executed | Arrays.RaggedDataAccepted | Arrays.ShapeExact |
