# Opcode cache: copying cached scripts out of shared memory

This project is a Dafny model of `ext/opcache/zend_accelerator_util_funcs.c` from PHP's opcode cache (OPcache).
When OPcache hands a cached script to a request, it copies the read-only script out of shared memory into process memory.
The model covers the parts of that file that do the work:

- **The value clone engine.** `zend_clone_str`, `zend_clone_zval`, `zend_ast_clone` and `zend_hash_clone_zval` copy strings, zvals, constant-expression trees and hash tables. The translation table `bind_hash` (`accel_xlat_get` / `accel_xlat_set`) lets an object referenced from several places be copied once and then shared.
- **The member and class copy.** `zend_hash_clone_methods`, `zend_hash_clone_prop_info`, `zend_prepare_function_for_execution` and `zend_class_copy_ctor` copy methods, properties and classes. They redirect scopes, prototypes, parents and magic-method handlers through `bind_hash`. A redirection that finds no translation ends in the "class loading error".
- **The merge into the request's symbol tables.** `zend_accel_function_hash_copy` and `zend_accel_class_hash_copy` cover collisions, mangled keys, the `ignore_dups` directive and the redeclaration errors. `zend_accel_move_user_functions` and `zend_accel_free_user_functions` move or delete user functions. `zend_accel_load_script` fixes the order of the steps.
- **`compact_hash_table` / `compact_persistent_script`.** They shrink a script's tables to the smallest power of two before the script is stored.
- **`zend_adler32`.** The checksum of cached data.

## Structure

| file | module | what it holds |
|---|---|---|
| `wrappers.dfy` | `Wrappers` | `Option` and `Result` |
| `zvalues.dfy` | `ZendValues` | addresses (`Shared` / `Private` `Id`s), `zend_string`, zval, `zend_ast` |
| `hashtable.dfy` | `HashTables` | the engine's `HashTable` at bucket level (`arData`, `arHash`, chains, `nTableMask`), the ordered map it holds, and `compact_hash_table` |
| `entities.dfy` | `ZendEntities` | reference-counted nodes, `zend_op_array`, `zend_property_info`, `zend_class_entry`, trait lists, the fatal errors |
| `clone.dfy` | `CloneEngine` | the copy pass (`class ClonePass`: the shared graph, the private heap, `bind_hash`) and the value copies |
| `members.dfy` | `MemberCopy` | the copy of functions, method tables and property tables |
| `classcopy.dfy` | `ClassCopy` | `zend_class_copy_ctor` |
| `symtab.dfy` | `SymbolTables` | `EG(function_table)` / `EG(class_table)`: an ordered map updated in place (`class SymbolTable`) |
| `merge.dfy` | `SymbolMerge` | the function and class merges, and moving or freeing user functions |
| `loader.dfy` | `Loader` | `compact_persistent_script` and `zend_accel_load_script` |
| `adler32.dfy` | `Adler32` | `zend_adler32` and RFC 1950's Adler-32 |

### How pointers are modelled

- Pointers are abstract addresses.
- Objects in shared memory (`Shared(n)`) and objects the copy allocates (`Private(n)`) never coincide.
- The shared graph is a map from address to node that the copy never changes.
- The private heap, `bind_hash` and the next free address are fields of `ClonePass`. The copy methods update them in place.
- A ghost map `origin` records the shared original of every private copy.
- `ClonePass.Valid()` states that every stored copy matches its original node for node: the same characters, the same reference-count header, and its contents copied (`NodeMatch`).

### How each core function is modelled

- **Value copies.** Every `zend_clone_*` / `zend_hash_clone_*` becomes a method of `ClonePass`. Its contract says what the result is a copy of (`ZvalMatch`, `TableCopied`, `AstMatch`) and where the copy is placed (`Placed`, `TablePlaced`, `AstFresh`). With `bind` set, an array, reference or tree referenced more than once goes to its translation, so every pointer to it shares one copy. Any other one gets a fresh copy, at or above the next free address at the call. Without `bind`, only strings are added to `bind_hash` (`OnlyStringsAdded`).
- **Merges.** The merges are methods over a `SymbolTable`, each proved against a pure function that merges the entries in order (`MergeFunctions`, `MergeClasses`). Lemmas about those functions state when a merge fails, which error it reports, and what the table holds after a merge that succeeds.
- **Compaction** works on a `HashTable` value and keeps its bucket layout exact, rebuilding the collision chains with the engine's rehash.
- **`zend_adler32`** is proved equal to a function of its input. That function is then compared with RFC 1950, section 2.2.

## Model

| member | source | states |
|---|---|---|
| Adler32.ZendAdler32 | ext/opcache/zend_accelerator_util_funcs.c:1038-1075 | the loop returns `Checksum` of the signed bytes; with no byte, `checksum` comes back unchanged; otherwise both 16-bit halves are below 65521; for bytes 0..127 it is RFC 1950's Adler-32 continued from `checksum` |
| Adler32.ChecksumLoop | ext/opcache/zend_accelerator_util_funcs.c:1040-1075 | NMAX-byte blocks, each followed by a reduction, then the tail; the result is `Checksum(checksum, bytes)` |
| Adler32.Tail | ext/opcache/zend_accelerator_util_funcs.c:1055-1073 | the bytes after the last full block, as 16-byte chunks then single bytes, then one reduction, is the last step of `Blocks` |
| Adler32.Accumulate | ext/opcache/zend_accelerator_util_funcs.c:1032-1036 | a `do { ADLER32_DO16 / DO1 } while` loop adds the bytes from `from` to `end` in turn, in 32-bit unsigned arithmetic, with no reduction |
| Adler32.PackHalves | ext/opcache/zend_accelerator_util_funcs.c:1040-1041 | `& 0xffff` and `>> 16` read back the two halves that `(s2 << 16) \| s1` packed |
| Adler32.EmptyChecksum | ext/opcache/zend_accelerator_util_funcs.c:1055 | with no byte the checksum is returned as given |
| Adler32.NmaxIsLargest | ext/opcache/zend_accelerator_util_funcs.c:1029-1030 | 5552 is the largest n with 255n(n+1)/2 + (n+1)(BASE-1) <= 2^32-1 |
| Adler32.BlocksIsModRun | ext/opcache/zend_accelerator_util_funcs.c:1044-1073 | for octets, reducing once per block with 32-bit accumulators gives the same sums as reducing after every byte (no accumulator wraps) |
| Adler32.AgreesWithRfc1950 | ext/opcache/zend_accelerator_util_funcs.c:1038-1075 | for byte values 0..255 the checksum is the Adler-32 of RFC 1950, section 2.2 (A = A + sum of bytes, B = B + sum of the successive A, modulo 65521) |
| Adler32.Adler32Unsigned | ext/opcache/zend_accelerator_util_funcs.c:1038-1075 | the same loop over unsigned octets: RFC 1950's Adler-32 for every non-empty input |
| Adler32.SignedByteDeparts | ext/opcache/zend_accelerator_util_funcs.c:1038 | the single byte 0x80 read as `signed char` from checksum 1 gives 0x00620062, where RFC 1950 gives 0x00810081 |
| Adler32.SignedRun | ext/opcache/zend_accelerator_util_funcs.c:1032 | adding -128 to `s1 = 1` wraps it to 2^32-127, which the reduction turns into 98 |
| HashTables.CompactHashTable | ext/opcache/zend_accelerator_util_funcs.c:90-140 | an empty or packed table, or one whose computed size is not smaller, is kept and 1 returned; a failed allocation returns 0 and keeps the table; otherwise the live buckets are kept in order, `nNumUsed` = `nNumOfElements`, the size is the computed one, the mask is size-1, the chains are rebuilt, and the ordered map is the same in every case |
| HashTables.ComputeSize | ext/opcache/zend_accelerator_util_funcs.c:103-111 | the `1U << i` loop from `i = 3` gives `CompactSize(n)` |
| HashTables.CompactSizeIsSmallest | ext/opcache/zend_accelerator_util_funcs.c:103-111 | the computed size is the least power of two that is at least the element count and at least 8 |
| HashTables.CopyLive | ext/opcache/zend_accelerator_util_funcs.c:123-129 | `d[j++] = *p` over the live buckets gives exactly the live buckets, in order |
| HashTables.CompactedIsValid | ext/opcache/zend_accelerator_util_funcs.c:133-137 | the table rebuilt with the new size and `zend_hash_rehash` is well formed and holds the same ordered map |
| HashTables.RehashKeepsElements | ext/opcache/zend_accelerator_util_funcs.c:137 | the rehash changes only the chain links: the elements stay the same, in the same order |
| HashTables.RehashBuildsChains | ext/opcache/zend_accelerator_util_funcs.c:137 | after the rehash every slot's chain visits exactly the buckets whose hash maps to it |
| HashTables.HeadInsertKeepsChains | ext/opcache/zend_accelerator_util_funcs.c:416-419 | pushing a new bucket on the head of its slot's chain keeps all chains correct |
| HashTables.ChainVisitsSlot | ext/opcache/zend_accelerator_util_funcs.c:414-419 | walking a slot's chain from `arHash` visits exactly the live buckets of that slot, newest first |
| HashTables.LiveBucketsSameEntries | ext/opcache/zend_accelerator_util_funcs.c:123-129 | dropping the dead buckets keeps the ordered map |
| CloneEngine.ClonePass.constructor | ext/opcache/zend_accelerator_util_funcs.c:944 | a new pass starts with an empty translation table and an empty private heap |
| CloneEngine.ClonePass.Dup | ext/opcache/zend_accelerator_util_funcs.c:250 | `STR_DUP(s, 0)`: a new private string with the same characters, reference count 1, not interned |
| CloneEngine.ClonePass.DupShared | ext/opcache/zend_accelerator_util_funcs.c:250-251 | the duplicate of a shared string, recorded as its copy |
| CloneEngine.ClonePass.Register | ext/opcache/zend_accelerator_util_funcs.c:253 | `accel_xlat_set`: the shared object now translates to its copy, and nothing else changes |
| CloneEngine.ClonePass.AddRef | ext/opcache/zend_accelerator_util_funcs.c:256 | `STR_ADDREF`: the reference count of the private string goes up by one |
| CloneEngine.ClonePass.TranslatedStr | ext/opcache/zend_accelerator_util_funcs.c:249 | a translated shared string leads to a stored private string with its characters |
| CloneEngine.ClonePass.CloneStr | ext/opcache/zend_accelerator_util_funcs.c:243-259 | an interned string is returned as is and nothing changes; a string referenced at most once, or not yet translated, gets a fresh private duplicate, registered exactly when its count is above 1; otherwise the translation is returned with its count raised |
| CloneEngine.ClonePass.CloneZval | ext/opcache/zend_accelerator_util_funcs.c:261-325 | an immutable array, the symbol table, scalars, objects and resources are kept and nothing changes; strings go through `zend_clone_str`; an array, reference or tree already translated with `bind` set and referenced more than once is shared; otherwise it gets a fresh copy at the next free address, registered exactly when `bind` is set and it is referenced more than once; the result always matches the original and is placed as `Placed` says; without `bind` only strings are registered |
| CloneEngine.ClonePass.CloneArr | ext/opcache/zend_accelerator_util_funcs.c:278-296 | the array case: share the translation, or allocate a fresh copy at the next free address with the same header, registered exactly under `bind` and refcount > 1, whose table is copied without `bind`: every array, reference or tree inside it is a fresh copy made after it (`TablePlaced` with `bind` false) and only strings are registered besides the array itself |
| CloneEngine.ClonePass.CloneRef | ext/opcache/zend_accelerator_util_funcs.c:297-309 | the reference case: share the translation, or a fresh reference at the next free address with the same header, registered exactly under `bind` and refcount > 1, whose value is placed as `zend_clone_zval` with the same `bind` places it; without `bind` only strings are registered |
| CloneEngine.ClonePass.CloneAstRef | ext/opcache/zend_accelerator_util_funcs.c:310-323 | the constant-expression case: share the translation, or a fresh AST reference at the next free address with the same header, registered exactly under `bind` and refcount > 1, whose tree is copied by `zend_ast_clone`: every leaf container a fresh copy (`AstFresh`), and only strings registered besides the reference itself |
| CloneEngine.ClonePass.AstClone | ext/opcache/zend_accelerator_util_funcs.c:328-352 | the copy has the same shape and kinds as the original; each leaf zval is copied without `bind`, so every array, reference or tree in a leaf is a fresh copy at or above the next free address at the call, and only strings are registered |
| CloneEngine.ClonePass.CloneChildren | ext/opcache/zend_accelerator_util_funcs.c:343-349 | NULL children stay NULL; each other child is copied |
| CloneEngine.ClonePass.CloneTableZval | ext/opcache/zend_accelerator_util_funcs.c:355-434 | the copy has the source's size, mask, element count and next free element, its internal pointer is reset, it is a well-formed table, and its elements are copies of the source's live elements, each placed as `zend_clone_zval` with the given `bind` places it (`TablePlaced`); without `bind` only strings are registered |
| CloneEngine.ClonePass.ClonePacked | ext/opcache/zend_accelerator_util_funcs.c:380-405 | packed branch: each live element is copied to the position its integer key names, and the gaps on the way are UNDEF |
| CloneEngine.ClonePass.CloneBuckets | ext/opcache/zend_accelerator_util_funcs.c:406-433 | hash branch: the live elements are copied in order, keys by `zend_clone_str`, values by `zend_clone_zval`, and the chains are correct |
| CloneEngine.ClonePass.CloneElement | ext/opcache/zend_accelerator_util_funcs.c:421-431 | the key (or NULL) and the value of one bucket are copied |
| CloneEngine.MarkUndef | ext/opcache/zend_accelerator_util_funcs.c:390-395 | `ZVAL_UNDEF` up to position `n`: the prefix is kept and everything after it is dead |
| CloneEngine.PackedGaps | ext/opcache/zend_accelerator_util_funcs.c:385-405 | with the positions past the copy marked UNDEF, a live element stands exactly where the source has one, and it is that element's copy |
| CloneEngine.PackedCopyValid | ext/opcache/zend_accelerator_util_funcs.c:380-405 | the packed copy, with the source's header, is a well-formed packed table |
| CloneEngine.SparseCopyValid | ext/opcache/zend_accelerator_util_funcs.c:406-433 | the hashed copy, with the source's header and correct chains, is a well-formed table |
| MemberCopy.PrepareFunction | ext/opcache/zend_accelerator_util_funcs.c:586-601 | the reference count is pinned at `ZEND_PROTECTED_REFCOUNT`; the static variables (if any) are replaced by a copy made without `bind`, so every array, reference or tree in them is a fresh copy (`TablePlaced` with `bind` false) and only strings are registered; nothing else of the op_array changes |
| MemberCopy.AllocMethod | ext/opcache/zend_accelerator_util_funcs.c:483-493 | a new op_array, registered when it has a refcount pointer, then prepared for execution |
| MemberCopy.Redirect | ext/opcache/zend_accelerator_util_funcs.c:495-512 | succeeds exactly when the scope is the old class or translated and the prototype (if any) is translated; the scope becomes the new class or its translation, the prototype its translation; otherwise the class loading error naming the class and the function |
| MemberCopy.CopyMethod | ext/opcache/zend_accelerator_util_funcs.c:478-512 | one method is allocated, registered, prepared and redirected; it fails exactly when its scope or prototype has no translation |
| MemberCopy.CloneMethods | ext/opcache/zend_accelerator_util_funcs.c:436-514 | succeeds exactly when every method, in order, finds its scope and prototype (counting the registrations of the methods before it); the copy is a well-formed table of copied methods under copied keys, and every method with a refcount is registered; a failure is the class loading error naming the class and the first method, in table order, that misses a translation (`FirstUnresolvedMethod`) |
| MemberCopy.ResolvesAfterRegistration | ext/opcache/zend_accelerator_util_funcs.c:489-512 | checking scope and prototype after the method's own registration is the same as checking them against the translation table before it |
| MemberCopy.MethodFail | ext/opcache/zend_accelerator_util_funcs.c:498-511 | a method that misses a translation after methods that all resolve makes the whole table fail, and it is the method the error names |
| MemberCopy.FirstUnresolvedMethodAt | ext/opcache/zend_accelerator_util_funcs.c:498-511 | the method named is the first live one, in table order, whose scope or prototype has no translation |
| MemberCopy.FirstUnresolvedMethodNone | ext/opcache/zend_accelerator_util_funcs.c:498-511 | no method is named exactly when every method resolves |
| MemberCopy.UnresolvedMethod | ext/opcache/zend_accelerator_util_funcs.c:498-511 | a miss against the table grown by the earlier methods is a miss against the table on entry plus those methods' registrations |
| MemberCopy.ClonePropInfo | ext/opcache/zend_accelerator_util_funcs.c:516-583 | succeeds exactly when every property's declaring class is the old class or translated; the copy is a well-formed table of copied properties; a failure is the class loading error naming the class and the first property, in table order, whose declaring class has no translation (`FirstUnresolvedProp`) |
| MemberCopy.CopyProperty | ext/opcache/zend_accelerator_util_funcs.c:562-581 | the name goes through `zend_clone_str`; the doc comment is duplicated when comments are loaded and dropped otherwise; the declaring class is redirected, or the class loading error names the class and the property |
| MemberCopy.PropFail | ext/opcache/zend_accelerator_util_funcs.c:575-581 | a property without a translation after properties that all resolve makes the whole table fail, and it is the property the error names |
| MemberCopy.FirstUnresolvedPropAt | ext/opcache/zend_accelerator_util_funcs.c:575-581 | the property named is the first live one, in table order, whose declaring class has no translation |
| MemberCopy.FirstUnresolvedPropNone | ext/opcache/zend_accelerator_util_funcs.c:575-581 | no property is named exactly when every property resolves |
| ClassCopy.ClassCopyCtor | ext/opcache/zend_accelerator_util_funcs.c:615-796 | succeeds exactly when every method, property, the parent and every handler find their translation; the copy is a new private class entry with refcount 1, every member is copied as the source does it (`ClassCopied`), and the default properties, static members and constants are copied with `bind` after the entry itself (`ClassPlaced`: a value referenced more than once is shared through its translation, any other is a fresh copy); a failure is the class loading error naming the class and the first method, else the first property, without a translation, and no member when only the parent or a handler misses (`FailedMember`) |
| ClassCopy.Allocate | ext/opcache/zend_accelerator_util_funcs.c:623-630 | the new entry is registered as the class's copy unless the class has refcount 1 |
| ClassCopy.ClassReg | ext/opcache/zend_accelerator_util_funcs.c:627-630 | after the registration, the class key translates to the copy exactly when refcount != 1, and every other key is unchanged |
| ClassCopy.CopyMembers | ext/opcache/zend_accelerator_util_funcs.c:632-669 | default properties, methods, static members, properties and constants are copied in the source's order; it succeeds exactly when methods and properties resolve; defaults, statics and constants are placed as copies made with `bind` (`MembersPlaced`); a failure names the first unresolved method, or when all methods resolve, the first unresolved property |
| ClassCopy.FailedMemberNone | ext/opcache/zend_accelerator_util_funcs.c:632-669 | the member copy names no member exactly when every method and every property resolves |
| ClassCopy.CopyDefaultsAndMethods | ext/opcache/zend_accelerator_util_funcs.c:632-646 | the default property zvals are copied with `bind` (`ZvalsPlaced` with `bind` true), then the method table; it fails exactly when a method misses a translation, naming the first such method |
| ClassCopy.CopyStaticsPropsConsts | ext/opcache/zend_accelerator_util_funcs.c:648-669 | the static members are copied with `bind` and `static_members_table` points to them; then the property table, then the constants with `bind` (`ZvalsPlaced`, `TablePlaced` with `bind` true); it fails exactly when a property misses a translation, naming the first such property |
| ClassCopy.FinishCopy | ext/opcache/zend_accelerator_util_funcs.c:671-796 | name, interfaces, doc comment, parent, handlers and trait lists; it succeeds exactly when the parent and every handler are translated, and its error then names no member |
| ClassCopy.CopyHeader | ext/opcache/zend_accelerator_util_funcs.c:671-686 | the name through `zend_clone_str`; a zeroed interface table of `num_interfaces` entries, or NULL; the doc comment duplicated or dropped per `load_comments` |
| ClassCopy.Redirect | ext/opcache/zend_accelerator_util_funcs.c:688-714 | succeeds exactly when the parent (if any) and every non-NULL handler have a translation; the parent becomes its translation and the handlers theirs |
| ClassCopy.TranslateHandlers | ext/opcache/zend_accelerator_util_funcs.c:603-612 | `zend_update_inherited_handler` over all slots: NULL stays NULL, any other handler becomes its translation, and a missing one is an error |
| ClassCopy.CopyTraits | ext/opcache/zend_accelerator_util_funcs.c:716-794 | the alias list and the precedence list are each copied when present and stay NULL otherwise |
| ClassCopy.CopyAliases | ext/opcache/zend_accelerator_util_funcs.c:718-751 | the entries before the NULL sentinel are copied in order, each name through `zend_clone_str`, and the list ends with NULL |
| ClassCopy.CopyAlias | ext/opcache/zend_accelerator_util_funcs.c:728-746 | a trait alias with its method name, class name and alias copied and the NULL ones kept NULL |
| ClassCopy.CopyPrecedences | ext/opcache/zend_accelerator_util_funcs.c:753-794 | the same for the precedence list |
| ClassCopy.CopyPrecedence | ext/opcache/zend_accelerator_util_funcs.c:763-789 | a precedence with its method and class names copied and its exclusion list copied |
| ClassCopy.CopyNames | ext/opcache/zend_accelerator_util_funcs.c:773-789 | the exclusion list: each name before the sentinel through `zend_clone_str`, then NULL |
| ClassCopy.CountEntries | ext/opcache/zend_accelerator_util_funcs.c:722-724 | `while (l[i]) i++` stops at the index of the first NULL |
| ClassCopy.CopyZvals | ext/opcache/zend_accelerator_util_funcs.c:633-641 | a NULL table stays NULL; otherwise every zval is copied with `bind` (`ZvalsPlaced` with `bind` true) |
| ClassCopy.CloneZvals | ext/opcache/zend_accelerator_util_funcs.c:637-640 | the copied table has the same length, each entry is a copy of the original's, and each is placed as `zend_clone_zval` with `bind` places it: shared through its translation when referenced more than once, fresh otherwise |
| ClassCopy.DefaultsShareAliases | ext/opcache/zend_accelerator_util_funcs.c:637-640 | in a class copy, two default property slots pointing to the same array, reference or tree referenced more than once hold one and the same copy; a slot pointing to one referenced once holds a fresh copy made after the class entry |
| ClassCopy.CopyConstants | ext/opcache/zend_accelerator_util_funcs.c:669 | the constants table is copied with `bind` into a well-formed table, each constant placed as with `bind` (`TablePlaced` with `bind` true) |
| ClassCopy.CopyDoc | ext/opcache/zend_accelerator_util_funcs.c:680-686 | the doc comment is duplicated when comments are loaded, dropped otherwise, and a NULL one stays NULL |
| ClassCopy.CloneOptStr | ext/opcache/zend_accelerator_util_funcs.c:732-746 | a NULL string stays NULL; any other goes through `zend_clone_str` |
| SymbolTables.SymbolTable.Add | ext/opcache/zend_accelerator_util_funcs.c:809 | `zend_hash_add` appends exactly when the key is absent, and the key is present afterwards |
| SymbolTables.SymbolTable.Update | ext/opcache/zend_accelerator_util_funcs.c:816 | `zend_hash_update`: the key now finds the new value, in its old place if it had one |
| SymbolTables.SymbolTable.Rewind | ext/opcache/zend_accelerator_util_funcs.c:843 | the internal pointer becomes 0, or `INVALID_IDX` for an empty table |
| SymbolTables.PutAllLookup | ext/opcache/zend_accelerator_util_funcs.c:197-214 | updating every entry in turn: a key of the entries finds its value there, and every other key keeps its old value |
| SymbolTables.ReplaceLookup | ext/opcache/zend_accelerator_util_funcs.c:816 | replacing in place changes the lookup of that key only |
| SymbolTables.LookupIndex | ext/opcache/zend_accelerator_util_funcs.c:826 | `zend_hash_find` finds the entry that carries the key |
| SymbolMerge.FunctionHashCopy | ext/opcache/zend_accelerator_util_funcs.c:798-861 | the outcome is the in-order merge of the live source functions: its error on failure; on success, the merged table with the internal pointer reset; with a copy constructor, every stored function is its prepared copy |
| SymbolMerge.StoreFunction | ext/opcache/zend_accelerator_util_funcs.c:808-841 | one function: a new key is added; a closure under a mangled key replaces the entry; anything else under a mangled key is skipped; any other collision is "Cannot redeclare" naming the earlier declaration when it is a user function with code |
| SymbolMerge.MergeFunctionsOutcome | ext/opcache/zend_accelerator_util_funcs.c:805-860 | a function merge fails exactly when some source function collides under a key that is not mangled; the error is the first such function's redeclaration |
| SymbolMerge.MergeFunctionsLookup | ext/opcache/zend_accelerator_util_funcs.c:805-842 | after a merge that succeeds, a source key finds its stored value when it was stored and its old value otherwise, and every other key keeps its value |
| SymbolMerge.MergeFunctionsKeys | ext/opcache/zend_accelerator_util_funcs.c:805-842 | after a merge that succeeds, the keys are those of both tables, none twice |
| SymbolMerge.MergeFunctionsPlaces | ext/opcache/zend_accelerator_util_funcs.c:809-816 | the old entries keep their places; only those under a mangled key may get a new value |
| SymbolMerge.MergeFunctionsFailureSticks | ext/opcache/zend_accelerator_util_funcs.c:827 | after the first error nothing more is merged, so it is the error reported |
| SymbolMerge.ClassHashCopy | ext/opcache/zend_accelerator_util_funcs.c:863-911 | the outcome is the in-order class merge with the copy made of each class: its error on failure; on success, the merged table with the internal pointer reset; with a copy constructor each copy is a new private entry of the same class, or its class loading error |
| SymbolMerge.StoreClass | ext/opcache/zend_accelerator_util_funcs.c:870-895 | one class: a new key is added and replaced by its copy; a collision under a mangled key, or any collision when duplicates are ignored, is skipped; any other collision is "Cannot redeclare class" |
| SymbolMerge.MergeClassesOutcome | ext/opcache/zend_accelerator_util_funcs.c:870-910 | a class merge fails exactly when some class collides under a key that is not mangled with duplicates not ignored, or its copy fails; the error is the first such class's |
| SymbolMerge.MergeClassesSuccess | ext/opcache/zend_accelerator_util_funcs.c:870-896 | after a class merge that succeeds, the old entries are unchanged in their places, every class whose key was new is found with its copy, and the keys are those of both tables |
| SymbolMerge.MergeClassesKeys | ext/opcache/zend_accelerator_util_funcs.c:870-896 | after a class merge that succeeds, the keys are those of both tables, none twice |
| SymbolMerge.MergeClassesFailureSticks | ext/opcache/zend_accelerator_util_funcs.c:881 | after the first error nothing more is merged |
| SymbolMerge.ClassStepAsWrittenDeparts | ext/opcache/zend_accelerator_util_funcs.c:879-894 | the step as written departs from the intended step exactly on an ignored duplicate under a key that is not mangled with a copy constructor, where it dereferences NULL |
| SymbolMerge.IgnoredDuplicateDereferencesNull | ext/opcache/zend_accelerator_util_funcs.c:874-894 | class `a` loaded from shared memory with `ignore_dups` into a table that has `a`: the step as written reaches `pCopyConstructor` with NULL |
| SymbolMerge.CopyClass | ext/opcache/zend_accelerator_util_funcs.c:893-895 | the copy constructor, seen from the merge, makes a new private entry with refcount 1 and the same name, interfaces count, file and line, or a class loading error naming the class |
| SymbolMerge.MoveUserFunctions | ext/opcache/zend_accelerator_util_funcs.c:183-215 | the source keeps exactly its functions that are not user functions, in order, and every user function is `zend_hash_update`d into the destination in order |
| SymbolMerge.MovePartition | ext/opcache/zend_accelerator_util_funcs.c:183-215 | after the move, a user function's key finds it in the destination, the destination's other keys are untouched, and the source finds exactly its other functions |
| SymbolMerge.FreeUserFunctions | ext/opcache/zend_accelerator_util_funcs.c:168-181 | exactly the internal functions stay, in order |
| SymbolMerge.WithTypeLookup | ext/opcache/zend_accelerator_util_funcs.c:168-181 | filtering by function type keeps keys unique, and a key finds its old function exactly when that function passes the filter |
| Loader.CompactPersistentScript | ext/opcache/zend_accelerator_util_funcs.c:142-146 | the function table, then (only if that succeeded) the class table are compacted; the result is 1 exactly when no needed allocation failed; both ordered maps are kept |
| Loader.LoadScript | ext/opcache/zend_accelerator_util_funcs.c:936-999 | from shared memory: classes copied and merged first, then functions prepared and merged, then the main op_array prepared; otherwise functions then classes, merged as they are; an empty table is not merged; the first fatal error stops the load and leaves the later table untouched |
| Loader.LoadShared | ext/opcache/zend_accelerator_util_funcs.c:943-971 | from shared memory: the classes merged first with their copies, then the functions prepared and merged, then the main op_array prepared; a class error leaves the function table untouched |
| Loader.PrepareMain | ext/opcache/zend_accelerator_util_funcs.c:956 | the main op_array is prepared last, and the functions prepared before it stay prepared |
| Loader.LoadLocal | ext/opcache/zend_accelerator_util_funcs.c:978-985 | otherwise: the functions merged first, then the classes, as they are; a function error leaves the class table untouched |
| Loader.LoadReportsFirstTable | ext/opcache/zend_accelerator_util_funcs.c:943-987 | when both a class and a function clash, a load from shared memory reports the class error and any other load reports the function redeclaration |
| Loader.LoadClassesShared | ext/opcache/zend_accelerator_util_funcs.c:947-949 | the class merge with `zend_class_copy_ctor` runs only when the script has classes; otherwise the table and its pointer are untouched |
| Loader.LoadFunctionsShared | ext/opcache/zend_accelerator_util_funcs.c:952-954 | the function merge with `zend_prepare_function_for_execution` runs only when the script has functions, and every stored function is prepared |

## Left out

- Memory management (`emalloc`, `efree`, `pefree`), destructors and `free_persistent_script`: the model has an unbounded private heap and never frees.
- `zend_error(E_ERROR, ...)` does not return. It is modelled as an error result that ends the operation. `CG(in_compilation)`, the compiled file name and the line number it sets (lines 849-851, 902-909) are left out.
- The table state after a fatal error: `FunctionHashCopy`, `ClassHashCopy` and `LoadScript` state the error, that a table not yet merged is left untouched, and that entries merged before the error stay; nothing more, because the process then bails out.
- The `__COMPILER_HALT_OFFSET__` constant (lines 958-969) and delayed early binding (lines 913-934, 973-977, 989-996): they call into the engine's constant and class-binding code, which is not part of this model.
- `zend_accel_copy_internal_functions` and `copy_internal_function` (lines 217-230), `create_persistent_script` and the destroy callbacks: allocation and engine bookkeeping outside the copy and merge.
- The build variants selected by `ZEND_EXTENSION_API_NO`: only the current engine's branches are modelled (default property tables as arrays, traits, closures under mangled keys).
- The engine's own hash operations (`zend_hash_add`, `zend_hash_update`, `zend_hash_find`, `zend_hash_apply`): the symbol tables are ordered maps (`SymbolTables`), not bucket arrays.
- `zend_hash_rehash` is modelled by its effect on the chains (`RehashChains`), not by its own code.
- The integer-key branch of the merges (`zend_hash_index_add`) uses the same `Key` type as string keys. For classes it follows the same collision rules. `move_user_function` passes `hash_key->key`, which is NULL for an integer key; the model treats every key alike.
- The hash tables being copied are values that the copy builds and returns, not structures updated in place behind a pointer. Aliasing between a table and its copy cannot arise, because the copy is always fresh.
- Bucket hashes (`h`) are arbitrary naturals, and `h & nTableMask` is written `h % nTableSize` for power-of-two sizes.
- Object and resource zvals are kept as they are, because the cache never stores them.
- `zend_ast_clone` allocates each node; the model produces the tree as a value with the same shape.
- Cycles in the shared data: every copy requires the shared graph to be acyclic (`SharedOk`, `NodeOk` and a `rank` that decreases along every pointer), which holds for the constant data the compiler stores in the cache. On a cycle the source would recurse forever when `bind` is 0 (nested tables at line 293, constant-expression leaves at line 338). Under `bind` it registers a copy before copying into it (lines 290-293 for arrays, 304-307 for references), which would end the recursion on a self-reference; the model does not exercise that ordering.
- CloneEngine.ClonePass.CloneTableZval: copies made without `bind` are stated to be fresh (at or above the next free address at the call), not pairwise distinct from each other.
- ClassCopy.ClassCopyCtor: of each method's static variables `ClassCopied` states only that they are copies (`Prepared`); that they were copied without `bind` is stated by `MemberCopy.PrepareFunction`'s contract and not carried into the class copy.
- SymbolMerge.FreeUserFunctions: does not state `nInternalPointer` afterwards, which `zend_hash_apply` adjusts while deleting.
- SymbolMerge.MoveUserFunctions: does not state the source table's `nInternalPointer` afterwards, for the same reason.
- SymbolMerge.ClassHashCopy: states of each copy only the facts the merge relies on (`CopyMade`); the full copy contract is `ClassCopy.ClassCopyCtor`'s.
- SymbolMerge.StoreClass: models the corrected behaviour on an ignored duplicate, not the NULL dereference (see Findings).
- Adler32.ZendAdler32: states RFC 1950 agreement only for bytes 0..127, because the source reads bytes as `signed char` (see Findings).
- Loader.LoadScript: the main op_array is copied by value; `emalloc` and the structure copy are not modelled separately.

### Where the code and its description differ

The model follows the code in two places where a plain description of the loader says otherwise:

- A collision under a mangled key is not always skipped. A closure under a mangled key replaces the existing entry (lines 813-820).
- A fatal error does not undo anything. The entries merged before the error stay in the table (the merge loops have no rollback).

## Findings

| source | as written | input that shows it | evidently intended | confidence | as-written member | corrected member |
|---|---|---|---|---|---|---|
| ext/opcache/zend_accelerator_util_funcs.c:1038 | the buffer is `signed char *`, so a byte of 0x80 or more is added as a negative number and wraps `s1` and `s2` modulo 2^32 before the reduction | the single byte 0x80 from checksum 1 gives 0x00620062 where RFC 1950 gives 0x00810081 | every byte read as an unsigned octet, giving the Adler-32 of RFC 1950 | not executed | Adler32.SignedByteDeparts | Adler32.AgreesWithRfc1950 |
| ext/opcache/zend_accelerator_util_funcs.c:879-894 | with `ignore_dups` set, a class whose key (not mangled) is already in the table leaves `t` NULL after the failed `zend_hash_add` and falls through to `pCopyConstructor(&Z_PTR_P(t))` | class `a` loaded from shared memory with `ignore_dups` into a class table that already holds `a` | the duplicate is skipped, as for a mangled key | not executed | SymbolMerge.IgnoredDuplicateDereferencesNull | SymbolMerge.StoreClass |
