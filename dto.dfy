/**
  The service layer's reply object (com.hmdp.dto.Result) and the constants
  the services read from RedisConstants and SystemConstants. The values of
  those constants are not part of this model: each service holds them as
  fields set when it is built.
*/
module Dto {

  /** Result.ok(data) or Result.fail(errorMsg). */
  datatype Response<+T> = Success(data: T) | Fail(errorMsg: string)

  /** The RedisConstants the core reads. TTLs are in the unit the caller passes with them. */
  datatype RedisConstants = RedisConstants(
    loginCodeKey: string,
    loginCodeTtl: int,      // minutes
    loginUserKey: string,
    loginUserTtl: int,      // minutes
    cacheNullTtl: int,      // minutes
    cacheShopKey: string,
    cacheShopTtl: int,      // minutes
    cacheShopTypeKey: string,
    lockShopKey: string)

  /** The SystemConstants the core reads. */
  datatype SystemConstants = SystemConstants(defaultPageSize: int, userNickNamePrefix: string)
}
