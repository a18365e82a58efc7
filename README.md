# Sistema bancário: a verified model of the ledger core

This project models the account and transaction domain of a small console
banking system written in Python. It covers these pieces:

- clients (`Cliente` / `PessoaFisica`), each with a list of owned accounts;
- accounts (`Conta`) with a balance, a number, branch `"0001"`, an owner and a history;
- the checking account (`ContaCorrente`), which adds a per-withdrawal limit (R$ 500,00) and a maximum number of withdrawals (3);
- the append-only history (`Historico`) of `{tipo, valor, data}` records;
- the deposit and withdrawal commands (`Deposito`, `Saque`), which journal a transaction only when the account accepted it;
- the ownership gate `Cliente.realizar_transacao`;
- client lookup by CPF (`filtrar_cliente`), sequential account numbering (`criar_conta`) and the account iterator (`ContasIterador`).

The model has two layers:

- **`Regras`** (`regras.dfy`) holds the rules as values:
  - the record and transaction datatypes;
  - the withdrawal decision of each account kind and the deposit decision;
  - `Efeito`, the effect of registering one transaction on an account's balance and history;
  - `Executar`, the same over a sequence of transactions;
  - the lemmas about them: the balance equals the signed sum of the history, a non-negative balance stays non-negative, the history is append-only, a checking account never exceeds its withdrawal maximum, and the withdrawal count never resets.
- **`SistemaBancario`** (`sistema_bancario.dfy`) holds the objects as classes with mutable fields:
  - `Historico.transacoes`;
  - `Conta.saldo`;
  - `Cliente.contas`;
  - the `clientes` / `contas` lists of the console program (`Cadastro`);
  - `ContasIterador.index`.

  The methods that move money or journal it are proved against the functions of `Regras`: `Historico.AdicionarTransacao`, `Conta.SacarBase`, `Conta.Sacar`, `Conta.Depositar`, `Registrar` and `Cliente.RealizarTransacao`. The bookkeeping methods (`Cliente.AdicionarConta`, `Cadastro.CriarConta`, `ContasIterador.Next`) state their new state directly, `CriarConta` in terms of `FiltrarCliente`.
- **`Cenarios`** (`cenarios.dfy`) replays sessions through the objects and states their outcomes:
  - the R$ 500,00 / R$ 500,01 limit edge;
  - four withdrawals in a row, the fourth of which is refused;
  - a client touching another client's account;
  - account numbering.

Modelling choices:

- Amounts are whole centavos (`int`). The source uses Python floats. Exact centavos keep the rules as evidently intended, but float rounding can change outcomes in the source: after depositing 0.30 and withdrawing 0.10 the source's balance is slightly below 0.20, so a withdrawal of 0.20 is refused there, while the model accepts it.
- There is no inheritance. A checking account is a `Conta` whose `politica` is `Corrente(limite, limiteSaques)`, and a base account has `politica == Base`. `Conta.Sacar` dispatches on it as the overriding `sacar` does.
- The source reports failures with printed messages and `True`/`False`. The model returns `Status`, which is either `Sucesso` (the source's `True`) or `Falha(motivo)`, with one reason per message of the source.
- The timestamp `datetime.now().strftime(...)` is an opaque `Data` string passed in by the caller.

Behaviour of the code worth noting:

- The withdrawal maximum is commented as a daily limit ("saques diários", "saques já foram feitos hoje" at sistema_bancario.py:138-140), but the code counts every `Saque` record in the whole history and never resets the count. The model does the same (`Regras.SaquesEsgotadosParaSempre`).
- A non-positive withdrawal is always refused, but not always as an invalid amount. A checking account first tests the per-withdrawal limit and then the withdrawal count, and only then does the base `sacar` run. That method tests the balance before the sign of the amount. So the reason can be `LimiteExcedido` (with a negative limit), `SaquesExcedidos`, or `SaldoInsuficiente` (on a negative balance). Whatever the reason, nothing changes (`Regras.ValorNaoPositivoRecusado`).
- The limit test is `valor > limite`, so a withdrawal of exactly R$ 500,00 passes it and R$ 500,01 does not (`Cenarios.LimitePorSaque`).

## Model

| member | source | states |
|---|---|---|
| `Regras.Saques` | sistema_bancario.py:141-144 | The withdrawals a checking account counts: no more than the history holds; every one is a `Saque` record taken from the history; and every `Saque` record of the history is among them. |
| `Regras.SaquesConcat` | sistema_bancario.py:141-147 | The withdrawals of a concatenated history are those of the first part followed by those of the second, so appending a record adds to the count exactly when the record is a `Saque`. |
| `Regras.SaquesCrescem` | sistema_bancario.py:141-147 | Extending a history (it is append-only) never lowers its withdrawal count. |
| `Regras.DecisaoSaqueBase` | sistema_bancario.py:98-110 | A base withdrawal succeeds iff `0 < valor <= saldo`. An amount above the balance is refused as insufficient balance (checked first). Any other refusal is an invalid amount. |
| `Regras.DecisaoSaque` | sistema_bancario.py:141-157 | A withdrawal succeeds iff `0 < valor <= saldo` and, for a checking account, `valor <= limite` and the whole-history withdrawal count is below `limiteSaques`. For a checking account, an amount above the limit is refused as `LimiteExcedido` whatever the count and balance. Within the limit, an exhausted count is refused as `SaquesExcedidos`. When both guards pass, the decision is exactly the base account's. |
| `Regras.DecisaoDeposito` | sistema_bancario.py:117-123 | A deposit succeeds iff `valor > 0`; otherwise it is refused as an invalid amount. |
| `Regras.Efeito` | sistema_bancario.py:206-227 | Registering a transaction succeeds iff the account's operation accepts it, and its outcome, refusal reason included, is the withdrawal or deposit decision of that account. On success, exactly one record `{tipo, valor, data}` of the transaction is appended and the balance moves by its signed amount. On failure, balance and history are unchanged. The history grows by one exactly on success. |
| `Regras.ValorNaoPositivoRecusado` | sistema_bancario.py:98-123 | A deposit or withdrawal of a non-positive amount is refused on every account kind and leaves balance and history unchanged. |
| `Regras.LimiteIndependeDoSaldo` | sistema_bancario.py:146-150 | A checking-account withdrawal above `limite` is refused as `LimiteExcedido` with no change, for every balance and history. |
| `Regras.EfeitoEscriturado` | sistema_bancario.py:206-227 | If the balance equals the signed sum of the history before a registration, it does so after. |
| `Regras.ExecutarEscriturado` | sistema_bancario.py:206-227 | After any sequence of registrations, the balance equals the signed sum of the history, provided it did at the start (as for a new account: 0 and empty). |
| `Regras.ExecutarSaldoNaoNegativo` | sistema_bancario.py:98-110 | A balance that starts non-negative is non-negative after any sequence of deposits and withdrawals. |
| `Regras.ExecutarSoAcrescenta` | sistema_bancario.py:176-184 | The history before any sequence of registrations is a prefix of the history after it: records are only appended. |
| `Regras.ExecutarRespeitaLimiteDeSaques` | sistema_bancario.py:141-157 | A checking account whose withdrawal count starts within `limiteSaques` never holds more than `limiteSaques` withdrawal records. |
| `Regras.SaquesEsgotadosParaSempre` | sistema_bancario.py:141-152 | Once a checking account's withdrawal count reaches `limiteSaques`, every later withdrawal is refused, after any sequence of further transactions: the count never resets. |
| `SistemaBancario.Historico.constructor` | sistema_bancario.py:169-170 | A new history is empty. |
| `SistemaBancario.Historico.AdicionarTransacao` | sistema_bancario.py:176-184 | Appends exactly the record `{tipo, valor, data}` of the transaction at the end and keeps the earlier records. |
| `SistemaBancario.Cliente.constructor` | sistema_bancario.py:27-51 | A new client has the given name, birth date, CPF and address, and no accounts. |
| `SistemaBancario.Cliente.AdicionarConta` | sistema_bancario.py:38-40 | Appends exactly the given account at the end of the client's list; earlier entries stay in place. |
| `SistemaBancario.Cliente.RealizarTransacao` | sistema_bancario.py:31-36 | For an account not in the client's list (by reference), the result is `ContaAlheia` and neither the account nor its history changes. For an owned account, the result is the registration of the transaction as `Regras.Efeito` prescribes. |
| `SistemaBancario.Conta.constructor` | sistema_bancario.py:61-66 | A new account has balance 0, branch `"0001"`, the given number, owner and kind, and a fresh, empty history. |
| `SistemaBancario.Conta.NovaConta` | sistema_bancario.py:68-71 | The factory returns a fresh account bound to exactly the given client and number, with balance 0, branch `"0001"` and an empty history. |
| `SistemaBancario.Conta.SacarBase` | sistema_bancario.py:93-110 | The outcome is `DecisaoSaqueBase` of the old balance. The balance drops by exactly `valor` on success and is unchanged otherwise. |
| `SistemaBancario.Conta.Sacar` | sistema_bancario.py:135-157 | The outcome is `DecisaoSaque` for the account's kind, old balance and current history. The balance drops by exactly `valor` on success and is unchanged otherwise. A non-negative balance stays non-negative. |
| `SistemaBancario.Conta.Depositar` | sistema_bancario.py:112-123 | The outcome is `DecisaoDeposito`. The balance rises by exactly `valor` on success and is unchanged otherwise. |
| `SistemaBancario.Registrar` | sistema_bancario.py:206-227 | The account's new balance and history and the outcome are those of `Regras.Efeito`. The outcome is success iff exactly the transaction's record was appended to the history, and on failure the history is unchanged. A balance that equals the signed sum of the history keeps doing so. |
| `SistemaBancario.Filtrados` | sistema_bancario.py:256 | The comprehension keeps exactly the clients with the given CPF, and its first element is the first such client in the list. |
| `SistemaBancario.FiltrarCliente` | sistema_bancario.py:254-257 | None iff no client has the CPF. Otherwise, the client at the first position whose CPF matches. |
| `SistemaBancario.Cadastro.constructor` | sistema_bancario.py:406-407 | The program starts with no clients and no accounts. |
| `SistemaBancario.Cadastro.CriarConta` | sistema_bancario.py:307-322 | If no client has the CPF, it returns `numeroConta` and no list changes. Otherwise, it returns `numeroConta + 1`, and a fresh checking account with default limits, number `numeroConta`, branch `"0001"`, balance 0, empty history and that client as owner is appended to both the program's account list and the client's list. Earlier entries are kept and other clients' lists are unchanged. |
| `SistemaBancario.ContasIterador.constructor` | sistema_bancario.py:7-9 | The iterator starts at position 0 of the given accounts. |
| `SistemaBancario.ContasIterador.Next` | sistema_bancario.py:14-20 | Returns the account at the current position and advances by one while accounts remain; at the end it returns none (StopIteration) and stays put. |
| `SistemaBancario.Percorrer` | sistema_bancario.py:331 | Iterating with `ContasIterador` visits exactly the given accounts, each once, in list order. |
| `Cenarios.LimitePorSaque` | sistema_bancario.py:130-157 | On a new default checking account: after a R$ 1000,00 deposit, R$ 500,00 is withdrawn and R$ 500,01 is refused as `LimiteExcedido`. A second R$ 500,00 is then withdrawn, leaving the balance at 0. |
| `Cenarios.QuatroSaques` | sistema_bancario.py:141-157 | Four R$ 100,00 withdrawals in a row after a deposit: three succeed and the fourth is refused as `SaquesExcedidos`. The history ends with four records. |
| `Cenarios.ContaDeOutroCliente` | sistema_bancario.py:31-36 | A withdrawal through a client who does not own the account is refused as `ContaAlheia`. Balance and history stay as the owner left them. |
| `Cenarios.NumeracaoDeContas` | sistema_bancario.py:307-322 | Starting from 1: an account for a known CPF yields 2, an unknown CPF leaves 2, and the next account yields 3. Two accounts end up in both the program's list and the client's list. |

## Left out

- The console layer (`menu`, `main`'s loop, `input()` prompts, `print` messages, `recuperar_conta_cliente`'s interactive choice, and the text of `listar_contas` and `mostrar_extrato`) is I/O and formatting. Failure messages became `Motivo` tags.
- `float(input(...))` parsing and its `ValueError` handling, and floating-point rounding, are not modelled: amounts are exact centavos.
- Timestamps: `datetime.now()` is external, so a record's `data` is a string the caller passes in.
- The `log_transacao` decorator is a logging side effect only.
- The `__repr__` methods only render display text.
- `criar_cliente` is not modelled: its CPF-uniqueness check depends on console input. Callers append clients to `Cadastro.clientes` directly; only the `filtrar_cliente` lookup it relies on is modelled.
- The `Transacao` abstract base class and the `ContasIterador.__iter__` method carry no behaviour of their own.
- The read-only properties (`saldo`, `numero`, `agencia`, `cliente`, `historico`, `transacoes`, `valor`) are plain field reads.
- `PessoaFisica` and `Cliente` are one class, because only `PessoaFisica` is ever created.
- `SistemaBancario.Registrar` and `SistemaBancario.Cliente.RealizarTransacao` return a `Status`. The source's `registrar` and `realizar_transacao` return nothing; the returned status is the account operation's `True`/`False`, or `ContaAlheia` for the not-owned case.
- `SistemaBancario.ContasIterador.Next` walks a snapshot of the account list taken at construction. The source keeps a reference to the live list, so accounts appended during an iteration are not visible in the model.
