# hmdp service core in Dafny

This project models the service layer of hmdp, a Spring application for shop reviews and flash-sale
vouchers. The service layer reads and writes two stores: Redis and a MySQL database. The model covers:

- the global id generator `RedisIdWorker`;
- the lease lock `SimpleRedisLock`;
- the cache-aside helper `CacheClient`, with its pass-through and logical-expiry reads;
- the seckill ordering path `IVoucherOrderServiceImpl`: the reply to a seckill request, the per-user
  lock, the transactional order insert, and the stream consumer with its pending-list drain;
- the shop, shop-type, user and follow services.

How the stores and services are represented:

- **Redis** is the class `Redis.Template`. Its field `kv` maps each key to an `Entry`: a value (string
  text, a JSON document, a hash, a set or a bitmap) and a TTL. Each command is also a pure function
  over the map, and the class method's `ensures` ties the new map to that function. TTLs are recorded
  but the clock never advances, so no key expires by itself.
- **Tables** are sequences of rows held in the service classes.
- **Time, random values and tokens** are parameters: the current `LocalDateTime` as a `DateTime`, the
  random code, the nickname suffix and the UUID token.
- **A thrown exception** is the `Err` case of `Result`.
- **Constants** that the services read from `RedisConstants` and `SystemConstants` are the fields of
  records passed in.

Every service operation that changes state has two parts:

- a specification function `…Step` that returns the reply and the state afterwards, with lemmas
  about it;
- a method of the service class, proved to compute exactly that function on the class's fields.

Source paths below are relative to the repository root.

Modules:

| file | module | what it holds |
|---|---|---|
| wrappers.dfy | `Wrappers` | `Option` and `Result` |
| strings.dfy | `Strings` | decimal text of 64-bit integers (`Long.toString`, `Long.valueOf`) and blankness |
| json.dfy | `Json` | JSON documents |
| redis.dfy | `Redis` | the keyspace and its commands |
| dto.dfy | `Dto` | `Result` replies and the constant records |
| java_long.dfy | `JavaLong` | 64-bit two's-complement `<<`, `\|` and `intValue` |
| id_worker.dfy | `IdWorker` | `RedisIdWorker` |
| redis_lock.dfy | `RedisLock` | `SimpleRedisLock` |
| cache_client.dfy | `CacheClient` | `CacheClient` |
| shop_service.dfy | `ShopService` | `ShopServiceImpl` |
| shop_type_service.dfy | `ShopTypeService` | `ShopTypeServiceImpl` |
| user_service.dfy | `UserService` | `UserServiceImpl` |
| follow_service.dfy | `FollowService` | `IFollowServiceImpl` |
| voucher_order.dfy | `VoucherOrders` | `IVoucherOrderServiceImpl` |

## Model

| member | source | states |
|---|---|---|
| Redis.Get | src/main/java/com/hmdp/utils/CacheClient.java:57 | GET answers "missing" exactly when the key is absent; a hit is the stored string or document, never a hash or set |
| Redis.IsTrue | src/main/java/com/hmdp/utils/SimpleRedisLock.java:30 | `BooleanUtil.isTrue` holds only for a non-null `true`; a null reply counts as false |
| Redis.SetCmd | src/main/java/com/hmdp/utils/CacheClient.java:35 | SET with a TTL succeeds exactly when the TTL is positive; on success the key holds the value and TTL; no other key changes |
| Redis.SetIfAbsentCmd | src/main/java/com/hmdp/utils/SimpleRedisLock.java:27-29 | SET NX EX replies true exactly when the key was absent, writes only then, and otherwise leaves the store as it was |
| Redis.DeleteCmd | src/main/java/com/hmdp/utils/SimpleRedisLock.java:36 | DEL reports whether the key existed, removes it, and leaves every other key alone |
| Redis.IncrCmd | src/main/java/com/hmdp/utils/RedisIdWorker.java:37 | INCR on an absent key replies 1 and stores "1" without a TTL; on a key holding the canonical text of n below the 64-bit maximum it replies n + 1, stores its text and keeps the TTL; any other value fails and leaves the store unchanged; no other key changes |
| Redis.SetBitCmd | src/main/java/com/hmdp/service/impl/UserServiceImpl.java:129 | SETBIT succeeds exactly on an absent key or a bitmap; it replies the previous bit, sets that offset, keeps the other bits and the TTL (an absent key becomes a persistent bitmap of one bit), and touches no other key |
| Redis.SetAddCmd | src/main/java/com/hmdp/service/impl/IFollowServiceImpl.java:52 | SADD grows the key's set by exactly the member; on a non-set key it fails and changes nothing |
| Redis.SetRemoveCmd | src/main/java/com/hmdp/service/impl/IFollowServiceImpl.java:59 | SREM shrinks the key's set by exactly the member; on a non-set key it fails and changes nothing |
| Redis.Intersect | src/main/java/com/hmdp/service/impl/IFollowServiceImpl.java:80 | SINTER holds exactly the members common to both sets, and fails when either key is not a set |
| Redis.HashPutAllCmd | src/main/java/com/hmdp/service/impl/UserServiceImpl.java:110 | HSET of a map succeeds exactly on an absent or hash key; afterwards every given field holds its value, every other field keeps its value, the TTL is kept (an absent key becomes a persistent hash), and no other key changes |
| Redis.ExpireCmd | src/main/java/com/hmdp/service/impl/UserServiceImpl.java:112 | EXPIRE reports whether the key existed, gives it the new TTL, and deletes it for a non-positive TTL |
| Redis.Template.constructor | src/main/java/com/hmdp/utils/CacheClient.java:27 | a new template starts with an empty keyspace |
| Redis.Template.Read | src/main/java/com/hmdp/utils/CacheClient.java:57 | `opsForValue().get` answers as `Get` on the current keyspace |
| Redis.Template.Set | src/main/java/com/hmdp/utils/CacheClient.java:35 | the reply and the new keyspace are those of `SetCmd` |
| Redis.Template.SetIfAbsent | src/main/java/com/hmdp/utils/SimpleRedisLock.java:27-29 | the reply and the new keyspace are those of `SetIfAbsentCmd` |
| Redis.Template.Delete | src/main/java/com/hmdp/utils/SimpleRedisLock.java:36 | the reply and the new keyspace are those of `DeleteCmd` |
| Redis.Template.Increment | src/main/java/com/hmdp/utils/RedisIdWorker.java:37 | the reply and the new keyspace are those of `IncrCmd` |
| Redis.Template.SetBit | src/main/java/com/hmdp/service/impl/UserServiceImpl.java:129 | the reply and the new keyspace are those of `SetBitCmd` |
| Redis.Template.SetAdd | src/main/java/com/hmdp/service/impl/IFollowServiceImpl.java:52 | the reply and the new keyspace are those of `SetAddCmd` |
| Redis.Template.SetRemove | src/main/java/com/hmdp/service/impl/IFollowServiceImpl.java:59 | the reply and the new keyspace are those of `SetRemoveCmd` |
| Redis.Template.SetIntersect | src/main/java/com/hmdp/service/impl/IFollowServiceImpl.java:80 | the reply is `Intersect` of the current keyspace |
| Redis.Template.HashPutAll | src/main/java/com/hmdp/service/impl/UserServiceImpl.java:110 | the reply and the new keyspace are those of `HashPutAllCmd` |
| Redis.Template.Expire | src/main/java/com/hmdp/service/impl/UserServiceImpl.java:112 | the reply and the new keyspace are those of `ExpireCmd` |
| Json.ReadPut | src/main/java/com/hmdp/service/impl/ShopTypeServiceImpl.java:43 | a member written into a JSON object reads back as the value written |
| Json.PutKeeps | src/main/java/com/hmdp/service/impl/ShopTypeServiceImpl.java:43 | writing one member leaves every other member's presence and value unchanged |
| Strings.DigitChar | src/main/java/com/hmdp/service/impl/IFollowServiceImpl.java:52 | the digit character for d is a digit whose value is d |
| Strings.Decimal | src/main/java/com/hmdp/service/impl/IFollowServiceImpl.java:52 | the decimal text of a natural number is non-empty and all digits, with no leading zero except for 0 itself |
| Strings.DigitsValueOfDecimal | src/main/java/com/hmdp/service/impl/IFollowServiceImpl.java:52 | the decimal text of n reads back as n |
| Strings.LongText | src/main/java/com/hmdp/service/impl/IFollowServiceImpl.java:43 | `Long.toString` is non-empty; it starts with '-' exactly for negatives, and digits follow |
| Strings.ParseLong | src/main/java/com/hmdp/service/impl/ShopServiceImpl.java:136 | `Long.valueOf` accepts only non-empty text of a value within the 64-bit range |
| Strings.ParseLongText | src/main/java/com/hmdp/service/impl/IFollowServiceImpl.java:86 | `Long.valueOf(Long.toString(n))` is n for every 64-bit n |
| Strings.LongTextInjective | src/main/java/com/hmdp/service/impl/IFollowServiceImpl.java:43 | distinct longs have distinct texts, so keys built from ids do not collide |
| Strings.Pow10 | src/main/java/com/hmdp/utils/RedisIdWorker.java:34 | a power of ten is at least 1 |
| Strings.Pad | src/main/java/com/hmdp/utils/RedisIdWorker.java:34-35 | a zero-padded date field has exactly the field width and only digits |
| Strings.PadInjective | src/main/java/com/hmdp/utils/RedisIdWorker.java:34-35 | two values that fit the width pad to the same text only if equal |
| JavaLong.Pow2 | src/main/java/com/hmdp/utils/RedisIdWorker.java:40 | every power of two is positive |
| JavaLong.Bits | src/main/java/com/hmdp/utils/RedisIdWorker.java:40 | a long's two's-complement pattern lies below 2^64 |
| JavaLong.FromBits | src/main/java/com/hmdp/utils/RedisIdWorker.java:40 | a 64-bit pattern is read back as the long whose pattern it is; it is non-negative exactly when the sign bit is clear |
| JavaLong.ShiftLeft | src/main/java/com/hmdp/utils/RedisIdWorker.java:40 | `x << n` on a long is always a long |
| JavaLong.BitOr | src/main/java/com/hmdp/utils/RedisIdWorker.java:40 | `a \| b` on longs is always a long |
| JavaLong.ShiftLeftExact | src/main/java/com/hmdp/utils/RedisIdWorker.java:40 | `x << n` is `x * 2^n` when that product fits in a non-negative long |
| JavaLong.BitOrShifted | src/main/java/com/hmdp/utils/RedisIdWorker.java:40 | ORing two values shifted by k with low bits below 2^k ORs the high parts and keeps the low bits |
| JavaLong.BitOrDisjoint | src/main/java/com/hmdp/utils/RedisIdWorker.java:40 | ORing a value shifted by k with a number below 2^k is plain addition |
| JavaLong.OrNatEvenOne | src/main/java/com/hmdp/utils/RedisIdWorker.java:40 | OR with 1 adds 1 to an even number |
| JavaLong.IntValue | src/main/java/com/hmdp/service/impl/IVoucherOrderServiceImpl.java:199 | `Long.intValue` lands in the 32-bit range and keeps every value that already fits |
| IdWorker.ComposeId | src/main/java/com/hmdp/utils/RedisIdWorker.java:40 | `timestamp << 32 \| count` is a long for every input |
| IdWorker.ComposeIdValue | src/main/java/com/hmdp/utils/RedisIdWorker.java:22-40 | for a 31-bit timestamp and a 32-bit count the id is `timestamp * 2^32 + count` |
| IdWorker.ComposeIdParts | src/main/java/com/hmdp/utils/RedisIdWorker.java:22-40 | such an id is non-negative; `id >> 32` gives back the timestamp and its low 32 bits give back the count |
| IdWorker.ComposeIdOrder | src/main/java/com/hmdp/utils/RedisIdWorker.java:40 | ids compare exactly as (timestamp, count) pairs compare lexicographically |
| IdWorker.ComposeIdCountSpills | src/main/java/com/hmdp/utils/RedisIdWorker.java:22-40 | an unmasked count of 2^32 + 1 gives the same id as count 1 one second later |
| IdWorker.ComposeIdNegativeFrom2089 | src/main/java/com/hmdp/utils/RedisIdWorker.java:31-40 | once the offset reaches 2^31 seconds (2089), every id is negative |
| IdWorker.DaysBeforeMonth | src/main/java/com/hmdp/utils/RedisIdWorker.java:30 | the days before a month are never negative |
| IdWorker.BeginTimestampIs2021 | src/main/java/com/hmdp/utils/RedisIdWorker.java:18 | `BEGIN_TIMESTAMP` is the epoch second of 2021-01-01T00:00:00 UTC |
| IdWorker.DaysBeforeYearIncreasing | src/main/java/com/hmdp/utils/RedisIdWorker.java:30 | a later year starts no earlier than the end of an earlier one |
| IdWorker.DaysBeforeMonthIncreasing | src/main/java/com/hmdp/utils/RedisIdWorker.java:30 | a later month starts no earlier than the end of an earlier one |
| IdWorker.YearOfMonths | src/main/java/com/hmdp/utils/RedisIdWorker.java:30 | the twelve months add up to the year's length |
| IdWorker.DayOfYearBound | src/main/java/com/hmdp/utils/RedisIdWorker.java:30 | a valid date's day of year lies within its year |
| IdWorker.EpochSecondIncreasing | src/main/java/com/hmdp/utils/RedisIdWorker.java:30 | `toEpochSecond(UTC)` strictly increases with time |
| IdWorker.DayStamp | src/main/java/com/hmdp/utils/RedisIdWorker.java:34-35 | `yyyy:MM:dd` is ten characters |
| IdWorker.DayStampInjective | src/main/java/com/hmdp/utils/RedisIdWorker.java:34-35 | two dates format alike exactly when they are the same day |
| IdWorker.CounterKeyInjective | src/main/java/com/hmdp/utils/RedisIdWorker.java:37 | two counter keys coincide exactly for the same prefix and day |
| IdWorker.NextIdStep | src/main/java/com/hmdp/utils/RedisIdWorker.java:27-41 | `nextId` returns a long; only that prefix's counter key for that day changes; a failed increment changes nothing |
| IdWorker.NextIdLayout | src/main/java/com/hmdp/utils/RedisIdWorker.java:31-40 | with a count below 2^32, the id is `timestamp * 2^32 + count`, where the count is the counter after one increment, and the counter key holds that count |
| IdWorker.NextIdParts | src/main/java/com/hmdp/utils/RedisIdWorker.java:31-40 | the id is non-negative; its high part is `now - BEGIN_TIMESTAMP` and its low 32 bits are the new count |
| IdWorker.NextIdIncreasing | src/main/java/com/hmdp/utils/RedisIdWorker.java:27-41 | a second call at the same or a later time returns a strictly larger id |
| IdWorker.RedisIdWorker.constructor | src/main/java/com/hmdp/utils/RedisIdWorker.java:24-25 | the worker uses the given template |
| IdWorker.RedisIdWorker.NextId | src/main/java/com/hmdp/utils/RedisIdWorker.java:27-41 | the reply and the new keyspace are those of `NextIdStep` |
| RedisLock.TryLockStep | src/main/java/com/hmdp/utils/SimpleRedisLock.java:20-31 | `tryLock` wins exactly when `"lock:" + name` is absent, and the key then holds the thread id with the given TTL; a loss changes nothing; a non-positive TTL throws |
| RedisLock.UnlockStep | src/main/java/com/hmdp/utils/SimpleRedisLock.java:34-37 | `unlock` removes the lock key and touches no other key |
| RedisLock.TryLockExclusive | src/main/java/com/hmdp/utils/SimpleRedisLock.java:27-30 | while one thread holds the lock, any other `tryLock` loses and changes nothing |
| RedisLock.TryLockUnlockRestores | src/main/java/com/hmdp/utils/SimpleRedisLock.java:27-36 | a won lock followed by `unlock` restores the keyspace exactly |
| RedisLock.UnlockByNonHolderFreesLease | src/main/java/com/hmdp/utils/SimpleRedisLock.java:34-37 | `unlock` does not check the owner: another thread's unlock frees a held lease, and a third thread can then take it |
| RedisLock.UnlockThenTryLock | src/main/java/com/hmdp/utils/SimpleRedisLock.java:29-36 | after `unlock`, the next `tryLock` with a positive TTL succeeds |
| RedisLock.SimpleRedisLock.constructor | src/main/java/com/hmdp/utils/SimpleRedisLock.java:14-17 | the lock keeps its name and template |
| RedisLock.SimpleRedisLock.TryLock | src/main/java/com/hmdp/utils/SimpleRedisLock.java:23-31 | the reply and the new keyspace are those of `TryLockStep` |
| RedisLock.SimpleRedisLock.Unlock | src/main/java/com/hmdp/utils/SimpleRedisLock.java:34-37 | the new keyspace is that of `UnlockStep` |
| CacheClient.EncodeRedisData | src/main/java/com/hmdp/utils/CacheClient.java:41-45 | the wrapper is an object with `expireTime`, and with `data` exactly when data is non-null |
| CacheClient.ReadRedisData | src/main/java/com/hmdp/utils/CacheClient.java:92-95 | only a JSON object reads as a wrapper |
| CacheClient.ReadRedisDataRoundTrip | src/main/java/com/hmdp/utils/CacheClient.java:41-95 | a written wrapper reads back with the same expire time and data |
| CacheClient.DecodeValue | src/main/java/com/hmdp/utils/CacheClient.java:60 | `toBean` succeeds only on a document that decodes, and yields its decoding |
| CacheClient.SetStep | src/main/java/com/hmdp/utils/CacheClient.java:34-36 | `set` stores the encoded value under the key with the given TTL; an invalid TTL throws and changes nothing |
| CacheClient.SetWithLogicalExpireStep | src/main/java/com/hmdp/utils/CacheClient.java:39-46 | `setWithLogicalExpire` stores a document with no TTL under the key and touches no other key |
| CacheClient.SetWithLogicalExpireReadsBack | src/main/java/com/hmdp/utils/CacheClient.java:41-45 | the stored wrapper holds `now + unit.toSeconds(time)` and the value |
| CacheClient.PassThroughStep | src/main/java/com/hmdp/utils/CacheClient.java:51-77 | the loader runs exactly on a miss; a hit changes nothing; a blank hit returns null; a non-blank hit returns its decoding; only `keyPrefix + id` can change |
| CacheClient.PassThroughMissWithoutRow | src/main/java/com/hmdp/utils/CacheClient.java:67-71 | a miss with no row writes the `""` tombstone for `CACHE_NULL_TTL` minutes and returns null |
| CacheClient.PassThroughMissWithRow | src/main/java/com/hmdp/utils/CacheClient.java:74-76 | a miss with a row caches it with the caller's TTL and returns it |
| CacheClient.PassThroughTombstoneShields | src/main/java/com/hmdp/utils/CacheClient.java:63-71 | after a tombstone is written, a repeat call returns null without calling the loader or writing |
| CacheClient.SetThenPassThroughHits | src/main/java/com/hmdp/utils/CacheClient.java:34-61 | after `set`, a pass-through read returns the value without calling the loader |
| CacheClient.LogicalExpireStep | src/main/java/com/hmdp/utils/CacheClient.java:80-121 | a miss returns null and changes nothing; the loader runs only if the rebuild lock key was absent; the lock key is gone afterwards; no read without a rebuild writes; only the data key and the lock key can change |
| CacheClient.LogicalExpireBlank | src/main/java/com/hmdp/utils/CacheClient.java:86-90 | a missing or blank entry returns null with no loader call, no lock attempt and no write |
| CacheClient.LogicalExpireFresh | src/main/java/com/hmdp/utils/CacheClient.java:92-99 | an entry whose expire time is strictly after now returns its data and changes nothing |
| CacheClient.LogicalExpireStale | src/main/java/com/hmdp/utils/CacheClient.java:96-121 | an entry that has expired (expire time not after now) returns its stale data; the rebuild runs exactly when the lock was won; a rebuild rewrites the wrapper with the fresh row and a new expire time; a loader that throws leaves the store as before |
| CacheClient.SetWithLogicalExpireThenRead | src/main/java/com/hmdp/utils/CacheClient.java:39-99 | a value written with a logical expiry is served unchanged until that expiry |
| CacheClient.TryLockKeyStep | src/main/java/com/hmdp/utils/CacheClient.java:123-126 | the rebuild lock is won exactly when its key is absent, and then holds `"1"` for 10 seconds |
| CacheClient.UnlockKeyStep | src/main/java/com/hmdp/utils/CacheClient.java:128-130 | `unLocak` removes the key and nothing else |
| CacheClient.CacheClient.constructor | src/main/java/com/hmdp/utils/CacheClient.java:29-31 | the client keeps its template |
| CacheClient.CacheClient.Set | src/main/java/com/hmdp/utils/CacheClient.java:34-36 | the reply and the new keyspace are those of `SetStep` |
| CacheClient.CacheClient.SetWithLogicalExpire | src/main/java/com/hmdp/utils/CacheClient.java:39-46 | the new keyspace is that of `SetWithLogicalExpireStep` |
| CacheClient.CacheClient.QueryWithPassThrough | src/main/java/com/hmdp/utils/CacheClient.java:51-77 | the reply, the loader call and the new keyspace are those of `PassThroughStep` |
| CacheClient.CacheClient.QueryWithLogicalExpire | src/main/java/com/hmdp/utils/CacheClient.java:80-121 | the reply, the loader call and the new keyspace are those of `LogicalExpireStep` |
| CacheClient.CacheClient.TryLock | src/main/java/com/hmdp/utils/CacheClient.java:123-126 | the reply and the new keyspace are those of `TryLockKeyStep` |
| CacheClient.CacheClient.UnLocak | src/main/java/com/hmdp/utils/CacheClient.java:128-130 | the new keyspace is that of `UnlockKeyStep` |
| ShopService.EncodeShop | src/main/java/com/hmdp/utils/CacheClient.java:35 | a shop's JSON is an object with an `id` member exactly when the id is non-null |
| ShopService.DecodeShop | src/main/java/com/hmdp/utils/CacheClient.java:94 | only an object decodes to a shop |
| ShopService.ShopMembersRead | src/main/java/com/hmdp/utils/CacheClient.java:94 | each member of a shop's JSON reads back as the field it came from |
| ShopService.ShopRoundTrip | src/main/java/com/hmdp/utils/CacheClient.java:94 | a cached shop decodes back to itself |
| ShopService.ShopCodecRoundTrip | src/main/java/com/hmdp/utils/CacheClient.java:94 | the shop codec is a faithful bean codec |
| ShopService.FindRow | src/main/java/com/hmdp/service/impl/ShopServiceImpl.java:75 | `getById` finds a row of the table with that id, and finds nothing exactly when no row has it |
| ShopService.ShopLoaderFinds | src/main/java/com/hmdp/service/impl/ShopServiceImpl.java:73-76 | the loader handed to the cache parses the key's id back and looks it up |
| ShopService.Pick | src/main/java/com/hmdp/service/impl/ShopServiceImpl.java:92 | `updateById` takes a non-null field from the patch and keeps the column otherwise |
| ShopService.UpdateById | src/main/java/com/hmdp/service/impl/ShopServiceImpl.java:92 | `updateById` keeps the row count and every id, and leaves rows with other ids as they were |
| ShopService.UpdateByIdThenFind | src/main/java/com/hmdp/service/impl/ShopServiceImpl.java:92 | after the update, the patched id finds the merged row and every other id finds what it found before; unique ids stay unique |
| ShopService.QueryByIdStep | src/main/java/com/hmdp/service/impl/ShopServiceImpl.java:63-83 | `queryById` fails with "店铺不存在!" exactly when the logical-expiry read yields null, succeeds with its shop otherwise, and leaves the store as that read does |
| ShopService.WarmedShopIsServed | src/main/java/com/hmdp/service/impl/ShopServiceImpl.java:73-82 | a shop warmed into the cache with a logical expiry is served until that expiry |
| ShopService.UpdateStep | src/main/java/com/hmdp/service/impl/ShopServiceImpl.java:86-96 | a null id fails with "店铺id不能为空" and changes nothing; otherwise the row is updated and exactly the key `CACHE_SHOP_KEY + id` is deleted |
| ShopService.UpdateHidesShopUntilWarmed | src/main/java/com/hmdp/service/impl/ShopServiceImpl.java:73-94 | after an update, `queryById` of that shop answers "店铺不存在!" until the cache is warmed again |
| ShopService.Limit | src/main/java/com/hmdp/service/impl/ShopServiceImpl.java:116 | `limit(end)` keeps the first `end` hits |
| ShopService.PageHits | src/main/java/com/hmdp/service/impl/ShopServiceImpl.java:108-132 | page `current` holds the hits from `(current-1)·size` to `current·size`, at most `size` of them |
| ShopService.PagesTile | src/main/java/com/hmdp/service/impl/ShopServiceImpl.java:108-109 | pages 1 to n laid end to end are exactly the first `n·size` hits: contiguous and disjoint |
| ShopService.PageBounds | src/main/java/com/hmdp/service/impl/ShopServiceImpl.java:108-109 | page n starts where page n−1 ends, and spans `size` positions |
| ShopService.ParseIds | src/main/java/com/hmdp/service/impl/ShopServiceImpl.java:135-136 | `Long.valueOf` of every member, in hit order; the whole page fails if any member is not a long |
| ShopService.Position | src/main/java/com/hmdp/service/impl/ShopServiceImpl.java:143 | `FIELD(id, ...)` is the first place where the id is listed |
| ShopService.ByFieldOrder | src/main/java/com/hmdp/service/impl/ShopServiceImpl.java:143 | `in("id", ids)` returns only table rows whose id is listed |
| ShopService.ByFieldOrderSorts | src/main/java/com/hmdp/service/impl/ShopServiceImpl.java:143 | the rows come back in the order of the ids |
| ShopService.ByFieldOrderCovers | src/main/java/com/hmdp/service/impl/ShopServiceImpl.java:143 | every listed id that has a row contributes that row |
| ShopService.ByFieldOrderBound | src/main/java/com/hmdp/service/impl/ShopServiceImpl.java:143 | no more rows than ids come back |
| ShopService.WithDistances | src/main/java/com/hmdp/service/impl/ShopServiceImpl.java:145-147 | each shop gets the distance recorded for its id; a shop without one throws a NullPointerException |
| ShopService.ShopsNearStep | src/main/java/com/hmdp/service/impl/ShopServiceImpl.java:108-148 | a page below 1 is rejected; a null search or a page past the last hit gives an empty list; the list has at most a page of shops |
| ShopService.ShopsNearCarryDistances | src/main/java/com/hmdp/service/impl/ShopServiceImpl.java:132-148 | with canonical member ids, the listing succeeds and every listed shop carries the distance of a search hit for its id |
| ShopService.ListedHaveDistances | src/main/java/com/hmdp/service/impl/ShopServiceImpl.java:139-146 | every listed id has an entry in the distance map |
| ShopService.DistanceIsAHit | src/main/java/com/hmdp/service/impl/ShopServiceImpl.java:139-146 | a recorded distance belongs to a hit for that member |
| ShopService.MemberHasHit | src/main/java/com/hmdp/service/impl/ShopServiceImpl.java:139 | every key of the distance map is the member of some hit |
| ShopService.LastHit | src/main/java/com/hmdp/service/impl/ShopServiceImpl.java:139 | for a repeated member the map keeps the distance of its last hit |
| ShopService.ShopsOfTypePage | src/main/java/com/hmdp/service/impl/ShopServiceImpl.java:101-105 | without a point, the page is the slice `[(c-1)·size, c·size)` of the table's shops of that type, in table order and cut at the end of the list, where c is `current` raised to at least 1 |
| ShopService.PageHitsIn | src/main/java/com/hmdp/service/impl/ShopServiceImpl.java:103-104 | a page holds nothing but hits |
| ShopService.OfType | src/main/java/com/hmdp/service/impl/ShopServiceImpl.java:103 | `eq("type_id", typeId)` keeps exactly the rows of that type |
| ShopService.CollectHits | src/main/java/com/hmdp/service/impl/ShopServiceImpl.java:129-140 | the `forEach` loop fails exactly when `ParseIds` does, and otherwise builds the id list and the distance map |
| ShopService.CollectStep | src/main/java/com/hmdp/service/impl/ShopServiceImpl.java:132-140 | one more hit appends its parsed id and records its distance |
| ShopService.PrefixParseFails | src/main/java/com/hmdp/service/impl/ShopServiceImpl.java:136 | a member that fails to parse fails the whole page |
| ShopService.FillDistances | src/main/java/com/hmdp/service/impl/ShopServiceImpl.java:145-147 | the loop that sets distances computes `WithDistances` |
| ShopService.PrefixDistanceFails | src/main/java/com/hmdp/service/impl/ShopServiceImpl.java:146 | a shop without a distance fails the whole list |
| ShopService.ShopServiceImpl.constructor | src/main/java/com/hmdp/service/impl/ShopServiceImpl.java:49-52 | the service keeps its table, cache client and constants |
| ShopService.ShopServiceImpl.QueryById | src/main/java/com/hmdp/service/impl/ShopServiceImpl.java:63-83 | the reply and the new keyspace are those of `QueryByIdStep` |
| ShopService.ShopServiceImpl.Update | src/main/java/com/hmdp/service/impl/ShopServiceImpl.java:86-96 | the reply, the new table and the new keyspace are those of `UpdateStep` |
| ShopService.ShopServiceImpl.QueryShopByType | src/main/java/com/hmdp/service/impl/ShopServiceImpl.java:99-149 | without a point the reply is the type's table page; with a point it is `ShopsNearStep` |
| ShopTypeService.EncodeType | src/main/java/com/hmdp/service/impl/ShopTypeServiceImpl.java:53 | a shop type's JSON is an object |
| ShopTypeService.TypeRoundTrip | src/main/java/com/hmdp/service/impl/ShopTypeServiceImpl.java:43-53 | a shop type decodes back to itself |
| ShopTypeService.EncodeTypes | src/main/java/com/hmdp/service/impl/ShopTypeServiceImpl.java:53 | the list's JSON is an array with one element per type |
| ShopTypeService.DecodeTypes | src/main/java/com/hmdp/service/impl/ShopTypeServiceImpl.java:43 | a decoded array has one type per element |
| ShopTypeService.TypesRoundTrip | src/main/java/com/hmdp/service/impl/ShopTypeServiceImpl.java:43-53 | the cached list reads back as the list written |
| ShopTypeService.Insert | src/main/java/com/hmdp/service/impl/ShopTypeServiceImpl.java:47 | inserting adds exactly that type, and keeps a sorted list sorted |
| ShopTypeService.InsertAppendSorted | src/main/java/com/hmdp/service/impl/ShopTypeServiceImpl.java:47 | re-attaching the largest element after an insert keeps the list sorted |
| ShopTypeService.OrderBySort | src/main/java/com/hmdp/service/impl/ShopTypeServiceImpl.java:47 | `orderByAsc("sort")` returns a permutation of the table, sorted by `sort` with nulls first |
| ShopTypeService.QueryOrderBySortStep | src/main/java/com/hmdp/service/impl/ShopTypeServiceImpl.java:37-56 | the table is read exactly when the key is absent or blank; a hit writes nothing; an empty table fails with "没有店铺类型" and writes nothing; otherwise the sorted list is returned and cached with no TTL |
| ShopTypeService.Miss | src/main/java/com/hmdp/service/impl/ShopTypeServiceImpl.java:47-55 | the miss branch always reads the table |
| ShopTypeService.MissThenHit | src/main/java/com/hmdp/service/impl/ShopTypeServiceImpl.java:42-54 | after a successful miss, the next call answers the same list from the cache, whatever the table holds then |
| ShopTypeService.CachedListAnswers | src/main/java/com/hmdp/service/impl/ShopTypeServiceImpl.java:40-44 | a cached list is the answer, and nothing is read or written |
| ShopTypeService.ShopTypeServiceImpl.constructor | src/main/java/com/hmdp/service/impl/ShopTypeServiceImpl.java:29-30 | the service keeps its table and template |
| ShopTypeService.ShopTypeServiceImpl.QueryOrderBySort | src/main/java/com/hmdp/service/impl/ShopTypeServiceImpl.java:37-56 | the reply, the table read and the new keyspace are those of `QueryOrderBySortStep` |
| UserService.WithPhone | src/main/java/com/hmdp/service/impl/UserServiceImpl.java:89 | `eq("phone", phone)` keeps exactly the users with that phone |
| UserService.One | src/main/java/com/hmdp/service/impl/UserServiceImpl.java:89 | `one()` is null exactly when no user has the phone; otherwise it is such a user; several matches throw |
| UserService.NewUser | src/main/java/com/hmdp/service/impl/UserServiceImpl.java:133-141 | the new user has the phone and the nickname `USER_NICK_NAME_PREFIX` + suffix; it is appended with a fresh id |
| UserService.AccountFor | src/main/java/com/hmdp/service/impl/UserServiceImpl.java:89-94 | a user with the phone is found, or else created only when none exists |
| UserService.UserMap | src/main/java/com/hmdp/service/impl/UserServiceImpl.java:99-107 | the session hash has `id` as text, plus `nickName` and `icon` exactly when they are non-null, and nothing else |
| UserService.UserMapRoundTrip | src/main/java/com/hmdp/service/impl/UserServiceImpl.java:99-107 | the session hash reads back as the user's `UserDTO` |
| UserService.SendCodeStep | src/main/java/com/hmdp/service/impl/UserServiceImpl.java:57-71 | an invalid phone fails with "手机格式错误" and writes nothing; otherwise the code is stored under `LOGIN_CODE_KEY + phone` for `LOGIN_CODE_TTL` minutes |
| UserService.LoginStep | src/main/java/com/hmdp/service/impl/UserServiceImpl.java:74-115 | an invalid phone or an absent or different code fails and changes nothing; a user is created only after the code matches and only when none exists; success returns the token; only the token key changes in the store |
| UserService.LoginOpensSession | src/main/java/com/hmdp/service/impl/UserServiceImpl.java:97-114 | a successful login had a valid phone and a matching code, and stores the user's hash under the token key for `LOGIN_USER_TTL` minutes |
| UserService.SendCodeThenLogin | src/main/java/com/hmdp/service/impl/UserServiceImpl.java:57-115 | logging in with the code just sent succeeds |
| UserService.LoginAgainCreatesNoUser | src/main/java/com/hmdp/service/impl/UserServiceImpl.java:81-94 | the code is not deleted, so logging in again with it succeeds and creates no second user |
| UserService.LoginKnownUser | src/main/java/com/hmdp/service/impl/UserServiceImpl.java:89-94 | a matching code for a phone that has a user creates nobody |
| UserService.AccountIsFound | src/main/java/com/hmdp/service/impl/UserServiceImpl.java:89-94 | after login the phone has exactly one user |
| UserService.MonthStamp | src/main/java/com/hmdp/service/impl/UserServiceImpl.java:124 | `:yyyyMM` is seven characters |
| UserService.SignOffset | src/main/java/com/hmdp/service/impl/UserServiceImpl.java:127-129 | the bit offset is `dayOfMonth - 1`, below 31 |
| UserService.SignStep | src/main/java/com/hmdp/service/impl/UserServiceImpl.java:118-131 | `sign` sets bit `dayOfMonth - 1` of `"sign:" + userId + ":yyyyMM"` and touches no other key |
| UserService.MonthStampInjective | src/main/java/com/hmdp/service/impl/UserServiceImpl.java:124 | two dates share a month stamp exactly when they share year and month |
| UserService.SignKeyInjective | src/main/java/com/hmdp/service/impl/UserServiceImpl.java:125 | two sign keys coincide exactly for the same user and month |
| UserService.SignIdempotent | src/main/java/com/hmdp/service/impl/UserServiceImpl.java:129 | signing twice on the same day changes nothing the second time |
| UserService.SignAccumulates | src/main/java/com/hmdp/service/impl/UserServiceImpl.java:125-129 | signing on two days of one month leaves both bits set in one bitmap |
| UserService.UserServiceImpl.constructor | src/main/java/com/hmdp/service/impl/UserServiceImpl.java:53-54 | the service keeps its table, template, constants and phone check |
| UserService.UserServiceImpl.SedCode | src/main/java/com/hmdp/service/impl/UserServiceImpl.java:57-71 | the reply and the new keyspace are those of `SendCodeStep` |
| UserService.UserServiceImpl.Login | src/main/java/com/hmdp/service/impl/UserServiceImpl.java:74-115 | the reply, the new user table and the new keyspace are those of `LoginStep` |
| UserService.UserServiceImpl.CreateUserWithPhone | src/main/java/com/hmdp/service/impl/UserServiceImpl.java:133-141 | the returned user and the new table are those of `NewUser` |
| UserService.UserServiceImpl.Sign | src/main/java/com/hmdp/service/impl/UserServiceImpl.java:118-131 | the reply and the new keyspace are those of `SignStep` |
| FollowService.FollowKeyInjective | src/main/java/com/hmdp/service/impl/IFollowServiceImpl.java:43 | distinct users have distinct `follows:` keys |
| FollowService.CountFollows | src/main/java/com/hmdp/service/impl/IFollowServiceImpl.java:69 | the count is 0 exactly when no such follow row exists |
| FollowService.Unfollowed | src/main/java/com/hmdp/service/impl/IFollowServiceImpl.java:56 | the delete removes exactly the matching rows, and changes nothing when none match |
| FollowService.FollowedMembers | src/main/java/com/hmdp/service/impl/IFollowServiceImpl.java:52-59 | the set for u holds t's text exactly when u follows t in the table |
| FollowService.FollowStep | src/main/java/com/hmdp/service/impl/IFollowServiceImpl.java:40-63 | a null flag throws; following appends the row; unfollowing deletes the matching rows; the reply is ok; only `follows:` + userId changes |
| FollowService.FollowedAfterFollow | src/main/java/com/hmdp/service/impl/IFollowServiceImpl.java:49-52 | a new row adds the target to the follower's set only |
| FollowService.FollowedAfterUnfollow | src/main/java/com/hmdp/service/impl/IFollowServiceImpl.java:56-59 | a delete removes the target from the follower's set only |
| FollowService.FollowKeepsKey | src/main/java/com/hmdp/service/impl/IFollowServiceImpl.java:40-63 | a set that mirrors the table still mirrors it after `follow` |
| FollowService.FollowKeepsSynced | src/main/java/com/hmdp/service/impl/IFollowServiceImpl.java:40-63 | `follow` keeps the table and every follow set in step |
| FollowService.IsFollowStep | src/main/java/com/hmdp/service/impl/IFollowServiceImpl.java:66-71 | `isFollow` is true exactly when the follow row exists |
| FollowService.IsFollowAgreesWithSet | src/main/java/com/hmdp/service/impl/IFollowServiceImpl.java:69-70 | with the stores in step, `isFollow` agrees with the Redis set |
| FollowService.FollowThenIsFollow | src/main/java/com/hmdp/service/impl/IFollowServiceImpl.java:40-70 | `isFollow` right after `follow(t, b)` answers b |
| FollowService.ParseIds | src/main/java/com/hmdp/service/impl/IFollowServiceImpl.java:86 | `Long.valueOf` of every member, failing if any is not a long |
| FollowService.ListByIds | src/main/java/com/hmdp/service/impl/IFollowServiceImpl.java:88-90 | the DTOs are exactly those of users whose id is listed |
| FollowService.FollowCommonsStep | src/main/java/com/hmdp/service/impl/IFollowServiceImpl.java:74-92 | an empty intersection gives an empty list; a failure comes only from a non-set key or an unparsable member |
| FollowService.FollowCommonsAreMutual | src/main/java/com/hmdp/service/impl/IFollowServiceImpl.java:77-91 | with the stores in step, the list holds exactly the users that both users follow |
| FollowService.FollowServiceImpl.constructor | src/main/java/com/hmdp/service/impl/IFollowServiceImpl.java:34-37 | the service keeps its table, template and user service |
| FollowService.FollowServiceImpl.FollowUser | src/main/java/com/hmdp/service/impl/IFollowServiceImpl.java:40-63 | the reply, the new table and the new keyspace are those of `FollowStep` |
| FollowService.FollowServiceImpl.IsFollow | src/main/java/com/hmdp/service/impl/IFollowServiceImpl.java:66-71 | true exactly when the follow row exists |
| FollowService.FollowServiceImpl.FollowCommons | src/main/java/com/hmdp/service/impl/IFollowServiceImpl.java:74-92 | the reply is `FollowCommonsStep` of the current stores |
| VoucherOrders.CountMatching | src/main/java/com/hmdp/service/impl/IVoucherOrderServiceImpl.java:281 | the count never exceeds the table size |
| VoucherOrders.CountMatchingZero | src/main/java/com/hmdp/service/impl/IVoucherOrderServiceImpl.java:281-283 | the count is 0 exactly when no order matches the user and voucher |
| VoucherOrders.CreateVoucherOrderStep | src/main/java/com/hmdp/service/impl/IVoucherOrderServiceImpl.java:276-299 | a match on the duplicate query (by order id) changes nothing; no positive stock changes nothing; otherwise exactly one row is added and stock drops by 1; an insert that clashes on the order id throws and rolls back |
| VoucherOrders.CreateVoucherOrderAdmitsRepeatBuyer | src/main/java/com/hmdp/service/impl/IVoucherOrderServiceImpl.java:280-281 | one user's two orders for the same voucher are both saved |
| VoucherOrders.CreateVoucherOrderIntended | src/main/java/com/hmdp/service/impl/IVoucherOrderServiceImpl.java:276-299 | with the query on the user id, an existing order for that user and voucher changes nothing; otherwise one row and one unit of stock at most |
| VoucherOrders.CreateVoucherOrderIntendedKeepsOnePerUser | src/main/java/com/hmdp/service/impl/IVoucherOrderServiceImpl.java:278-298 | the corrected check keeps at most one order per user and voucher |
| VoucherOrders.Ack | src/main/java/com/hmdp/service/impl/IVoucherOrderServiceImpl.java:102 | XACK removes exactly the entries with that id from the pending list |
| VoucherOrders.ReadNew | src/main/java/com/hmdp/service/impl/IVoucherOrderServiceImpl.java:79-91 | reading `>` is empty exactly when every entry was delivered; otherwise it delivers the next entry and adds it to the pending list |
| VoucherOrders.HandleStep | src/main/java/com/hmdp/service/impl/IVoucherOrderServiceImpl.java:164-182 | a held user lock returns without touching the tables; the lock set is the same afterwards on every path; a failure leaves the tables unchanged |
| VoucherOrders.HandleKeepsStock | src/main/java/com/hmdp/service/impl/IVoucherOrderServiceImpl.java:288-292 | handling an order never makes stock negative |
| VoucherOrders.DrainStep | src/main/java/com/hmdp/service/impl/IVoucherOrderServiceImpl.java:111-144 | a drain that survives empties the pending list; it dies only at a pending entry whose handling fails, leaving that entry pending, and dies at once when the first entry fails; it only removes entries from the pending list and never reads new ones |
| VoucherOrders.RoundStep | src/main/java/com/hmdp/service/impl/IVoucherOrderServiceImpl.java:74-107 | an empty read changes nothing; otherwise the next entry is delivered and made pending; when its handling returns normally the consumer stays alive, the entry is acknowledged and every other pending entry stays; when it fails the outcome is that of the drain, with the entry still pending |
| VoucherOrders.IterateSnoc | src/main/java/com/hmdp/service/impl/IVoucherOrderServiceImpl.java:74 | n + 1 passes are n passes followed by one more, unless the loop already ended |
| VoucherOrders.IterateDiedStays | src/main/java/com/hmdp/service/impl/IVoucherOrderServiceImpl.java:74 | once the loop has ended, further passes change nothing |
| VoucherOrders.IteratePreserves | src/main/java/com/hmdp/service/impl/IVoucherOrderServiceImpl.java:74 | a property that every pass keeps holds after any number of passes |
| VoucherOrders.DrainKeepsStock | src/main/java/com/hmdp/service/impl/IVoucherOrderServiceImpl.java:112-143 | draining the pending list never makes stock negative |
| VoucherOrders.RoundKeepsStock | src/main/java/com/hmdp/service/impl/IVoucherOrderServiceImpl.java:74-107 | one pass of the consumer never makes stock negative |
| VoucherOrders.RunKeepsStockNonNegative | src/main/java/com/hmdp/service/impl/IVoucherOrderServiceImpl.java:288-292 | however many orders the consumer handles, stock stays non-negative |
| VoucherOrders.RunAsWrittenDies | src/main/java/com/hmdp/service/impl/IVoucherOrderServiceImpl.java:134-138 | on a stream whose first entry clashes with a saved order id, the drain throws and the consumer stops with the second entry never read |
| VoucherOrders.DrainIntended | src/main/java/com/hmdp/service/impl/IVoucherOrderServiceImpl.java:111-144 | with the failure caught and retried, a drain that finishes within the attempts allowed has emptied the pending list and read no new entries |
| VoucherOrders.Attempt | src/main/java/com/hmdp/service/impl/IVoucherOrderServiceImpl.java:113-133 | one attempt at the first pending entry reads no new entries, and a failed attempt changes nothing |
| VoucherOrders.DrainIntendedFuel | src/main/java/com/hmdp/service/impl/IVoucherOrderServiceImpl.java:111-144 | a drain that has finished gives the same result with more attempts allowed: the attempt count only bounds the retries |
| VoucherOrders.DrainIntendedLivelocks | src/main/java/com/hmdp/service/impl/IVoucherOrderServiceImpl.java:134 | on the clashing stream the intended retry never empties the pending list, however many attempts are allowed |
| VoucherOrders.RunIntendedLivelocks | src/main/java/com/hmdp/service/impl/IVoucherOrderServiceImpl.java:74-107 | so even the intended consumer never gets past the first entry of the clashing stream |
| VoucherOrders.RoundIntended | src/main/java/com/hmdp/service/impl/IVoucherOrderServiceImpl.java:74-107 | with the intended drain, a pass that finishes delivers the next entry if there is one and, starting from an empty pending list, leaves it empty |
| VoucherOrders.RunIntended | src/main/java/com/hmdp/service/impl/IVoucherOrderServiceImpl.java:74-107 | with the intended drain, an exception no longer ends the consumer: when its drains finish, n passes deliver n more entries, up to the end of the stream, and leave nothing pending |
| VoucherOrders.SeckillResponse | src/main/java/com/hmdp/service/impl/IVoucherOrderServiceImpl.java:199-208 | script result 0 succeeds with the order id, 1 fails with "库存不足", any other value fails with "不能重复下单" |
| VoucherOrders.VoucherOrderService.constructor | src/main/java/com/hmdp/service/impl/IVoucherOrderServiceImpl.java:42-50 | the service starts with its tables and stream, no locks, and a null proxy |
| VoucherOrders.VoucherOrderService.SeckillVoucher | src/main/java/com/hmdp/service/impl/IVoucherOrderServiceImpl.java:186-209 | the order id is drawn even for a rejected request; the reply follows `SeckillResponse`; an admitted order is appended to the stream; the proxy is set once an order is admitted |
| VoucherOrders.VoucherOrderService.CreateVoucherOrder | src/main/java/com/hmdp/service/impl/IVoucherOrderServiceImpl.java:276-299 | the reply and the new tables are those of `CreateVoucherOrderStep`; the locks, stream and proxy are unchanged |
| VoucherOrders.VoucherOrderService.HandleVoucherOrder | src/main/java/com/hmdp/service/impl/IVoucherOrderServiceImpl.java:164-182 | the reply and the new state are those of `HandleStep` |
| VoucherOrders.VoucherOrderService.Acknowledge | src/main/java/com/hmdp/service/impl/IVoucherOrderServiceImpl.java:102 | only the pending list changes, as `Ack` says |
| VoucherOrders.VoucherOrderService.HandlePendingList | src/main/java/com/hmdp/service/impl/IVoucherOrderServiceImpl.java:111-144 | the loop's outcome and the new state are those of `DrainStep` |
| VoucherOrders.VoucherOrderService.Round | src/main/java/com/hmdp/service/impl/IVoucherOrderServiceImpl.java:75-107 | the outcome and the new state are those of `RoundStep` |
| VoucherOrders.VoucherOrderService.Pass | src/main/java/com/hmdp/service/impl/IVoucherOrderServiceImpl.java:74-108 | one more pass of the loop extends the run by one round |
| VoucherOrders.VoucherOrderService.Run | src/main/java/com/hmdp/service/impl/IVoucherOrderServiceImpl.java:73-109 | the loop's outcome after `rounds` passes, or at the pass that ends it, is that of `RunSpec` |

## Left out

- Time does not pass: TTLs are stored with each key but no key ever expires. Current times, random codes, nickname suffixes, UUID tokens and thread ids are parameters.
- Redis.ToSeconds: `TimeUnit.toSeconds` saturates at the 64-bit limits; the model multiplies without saturating.
- Integer width of counts and sizes: `int` page arithmetic (`current * PAGE_SIZE`) and `Integer` counts are unbounded here; ids, counters and the seckill result are modelled at 64 and 32 bits where the code relies on it.
- `seckill.lua` is not part of this model: its result is a parameter of `SeckillVoucher`, and the order is appended to the stream when it is 0.
- Redisson's `RLock` is a set of held lock names: reentrancy, the watchdog and waiting are not modelled.
- Threads: the rebuild executor and the order executor run inline and in sequence. The 2-second blocking read, `Thread.sleep(20)` and any interleaving are not modelled. That includes the race between enqueueing and assigning `proxy`; the proxy is a flag, and a null proxy is a NullPointerException in `HandleStep`.
- `run()` never returns. `VoucherOrderService.Run` and `RunSpec` model its first `rounds` passes.
- VoucherOrders.DrainIntended, VoucherOrders.RoundIntended, VoucherOrders.RunIntended: the corrected drain retries for at most `fuel` attempts and answers None when the pending list is still not empty; their contracts speak only of runs whose drains finish. Handling is deterministic in this model, so an entry that fails once fails on every retry, and the corrected consumer then retries forever (`DrainIntendedLivelocks`): the source has no dead-letter handling, and transient failures that a retry would get past are not modelled.
- JSON text: `JSONUtil` output is a structured `Json` value, not characters. Only the shapes that `Shop`, `ShopType` and `RedisData` produce are decoded.
- `Double` coordinates and distances are opaque tokens, and the geo search is a function from key to hit list: its radius, sorting and the coordinate arithmetic are not modelled.
- UserService.SendCodeStep, UserService.NewUser: the login code and the nickname suffix are free strings. `RandomUtil.randomNumbers(6)` and `RandomUtil.randomString(10)` make them six digits and ten characters; no property here depends on their shape.
- Redis.SetBitCmd: SETBIT on a key holding string text fails with `Unmodelled`, where the store would set a bit in the text's bytes. The sign-in keys are written only by SETBIT, so the services never reach that case.
- `RegexUtils.isPhoneInvalid` is a predicate given to the user service; its pattern is not modelled.
- MyBatis-Plus: tables are sequences of rows, and `save` always succeeds, including in `follow`, so the branch where a save reports failure is not reached. `remove` in `follow` reports failure exactly when no follow row matched, and that branch is modelled: the set is then left as it was.
- `listByIds` returns users in table order, where MySQL makes no ordering promise.
- `BeanUtil.fillBeanWithMap` from a stream entry is not modelled: each entry carries its order directly.
- A login code stored as a JSON document rather than plain text never matches the submitted code: the model does not compare a document's text. A hash or set under the code key makes `get` throw, as in the store.
- `User` columns other than id, phone, nickname and icon, and their database defaults, are left out.
- Commented-out earlier versions of `seckillVoucher` and the in-memory order queue are not modelled, nor is `RedisIdWorker.main` beyond the epoch value it prints.

## Findings

| source | as written | input that shows it | evidently intended | confidence | as-written member | corrected member |
|---|---|---|---|---|---|---|
| src/main/java/com/hmdp/service/impl/IVoucherOrderServiceImpl.java:280-281 | the one-order-per-user query reads `voucherOrder.getId()` (the order id) as the user id | voucher 7 with stock 2 and orders 100 and 101 of user 1: the query finds no row for either, so both are saved | query `user_id` with `voucherOrder.getUserId()`, so a user holds at most one order per voucher | not executed | VoucherOrders.CreateVoucherOrderAdmitsRepeatBuyer | VoucherOrders.CreateVoucherOrderIntendedKeepsOnePerUser |
| src/main/java/com/hmdp/service/impl/IVoucherOrderServiceImpl.java:134-141 | after a failure in the pending list, the catch block sleeps and then throws a `RuntimeException` that its own `catch (InterruptedException)` does not catch; it escapes `handlePendingList` and the catch in `run()`, and the consumer thread ends | a stream whose first entry repeats an order id already in `tb_voucher_order`: the insert fails, the drain throws, and the second entry is never read | as the comment at line 134 says, log and loop again until no exception, so a failure no longer ends the consumer and it goes on reading new entries once the pending list is handled; on this very input the retry never succeeds, so the corrected consumer livelocks instead (`DrainIntendedLivelocks`) | not executed | VoucherOrders.RunAsWrittenDies | VoucherOrders.RunIntended |

Both rows follow the code as written: the service class uses `CreateVoucherOrderStep` and `DrainStep`. The corrected definitions stand beside them, with their properties proved.
