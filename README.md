# Probing-parser chain lookup of the application-layer parser framework

This project models one part of the application-layer parser framework of the
Suricata network inspection engine. It covers the per-port chain of probing
parsers and the lookup `AppLayerGetProbingParsers`, which finds the chain
record for a port.

Each chain record (`AppLayerProbingParser`) holds:

- a port;
- the largest probing depth registered for that port, one per direction;
- the probe elements for each direction;
- a `next` link.

The lookup walks the chain from its head. It stops at the first record whose
port equals the one asked for, and returns NULL when the chain is empty or no
record matches. Its `ip_proto` argument is never read.

The model is in `app_layer_parser.dfy`, module `AppLayerParser`:

- `ProbingParser` is a heap class with the record's fields. `next` is a
  nullable reference to the next record.
- `ProbingParserElement` is an inert datatype standing for one registered
  probe (`AppLayerProbingParserElement`). No lookup behaviour depends on it.
- The priority constants `PRIORITY_HIGH`, `PRIORITY_MEDIUM` and
  `PRIORITY_LOW` are 1, 2 and 3.
- The C integer widths are subset types `uint8`, `uint16` and `uint32`.
- `Chain(head, nodes)` ties a ghost sequence `nodes` to the linked list that
  starts at `head`, in `next` order, ending in NULL.
- `FirstIndexOf` is a pure reference definition of "first occurrence of a
  port in a sequence of ports". The lookup method's contract ties its result
  to it.
- `GetProbingParsers` is the lookup. It has the source's shape: an early
  return for a NULL head, then a `while` loop that moves a cursor along
  `next` and leaves by `break` on a port match. It has no `modifies` clause,
  so Dafny's frame rules guarantee that it changes no field of any record.
  This covers `port`, `next`, both max depths and both element chains.
  Termination is proved with the length of the rest of the list as the
  decreasing measure. The ghost out-parameter `steps` counts the cursor
  advances and is bounded by the list length.

The chain is a parameter of the lookup, as in the C function. The
process-wide global `probing_parsers` is not modelled.

## Model

| member | source | states |
|---|---|---|
| `AppLayerParser.GetProbingParsers` | src/app-layer-parser.h:170-187 | A NULL head gives NULL. A non-NULL result is a record of the list, reached from the head by `steps` advances along `next`, and its port is the queried port. No earlier record has that port. The result is NULL exactly when no record has the port, and then the loop has advanced exactly the list's length. The result is the record at `FirstIndexOf` of the list's ports, or NULL when that is None. Nothing in the heap is modified. |
| `AppLayerParser.GetProbingParsersIgnoresIpProto` | src/app-layer-parser.h:171-186 | Two lookups on the same chain and port that differ only in `ip_proto` return the same record, whose port, when it is non-NULL, is the queried one. |
| `AppLayerParser.FirstIndexOf` | src/app-layer-parser.h:178-186 | Reference search over the list's ports. Some(k) means the port occurs at k and at no earlier index. None holds exactly when the port does not occur at all. |
| `AppLayerParser.ChainUnique` | src/app-layer-parser.h:151-162 | The `next` links determine the list. Two sequences that both describe the chain starting at one head are equal, so the lookup's answer does not depend on which description is used. |
| `AppLayerParser.ChainDistinct` | src/app-layer-parser.h:161 | A chain that ends in NULL is acyclic: no record occurs in it twice. |
| `AppLayerParser.ChainTail` | src/app-layer-parser.h:161 | The part of a non-empty chain after its head is the chain that starts at the head's `next`. This is the step the lookup's cursor takes at line 183. |

## Left out

- The prototypes at src/app-layer-parser.h:190-242 have no bodies in this source, so there is no behaviour to model. They cover registration of protocols, parsers, probing parsers, state and transaction callbacks and loggers; `AppLayerParse`; the field helpers `AlpParseFieldBySize`, `AlpParseFieldByEOF` and `AlpParseFieldByDelimiter`; the transaction-id getters and updaters; `AppLayerParserCleanupState`; and `AppLayerFreeProbingParsers`.
- The relation between `inspect_id`, `logged_id`, `avail_id` and `base_id` appears only in comments (lines 108-119). No code maintains it, so no invariant over it is stated.
- The other records of the header (`AppLayerProto`, `AppLayerParserResultElmt`, `AppLayerParserResult`, `AppLayerParserState`, `AppLayerParserStateStore`, `AppLayerParserTableElement`) and the flag constants are not used by the lookup, so they are not modelled.
- Function-pointer fields are foreign callbacks with no code here: the probe function of an element (line 146), the parser function (lines 127-129) and the state and transaction callbacks (lines 47-50).
- The element lists `toserver` and `toclient` of a chain record are values (`seq<ProbingParserElement>`), not linked heap lists. The lookup never follows them, so sharing between element lists is not modelled.
- The global `probing_parsers` (line 168) is process-wide state owned elsewhere. The chain is passed as a parameter instead.
- Memory ownership and freeing of records are not modelled.
